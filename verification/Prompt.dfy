/** How the recovery prompt is written: escaping, history records and the sections around them.

    The fixed sentences are a parameter: nothing here depends on their wording. */
module Prompt {
  import opened Text

  // ---------------------------------------------------------------- sections

  function Total(parts: seq<string>): nat {
    if parts == [] then 0 else Bytes(parts[0]) + Total(parts[1..])
  }

  /** Each label followed by its value. */
  function Interleave(labels: seq<string>, values: seq<string>): string
    requires |labels| == |values|
  {
    if labels == [] then "" else labels[0] + values[0] + Interleave(labels[1..], values[1..])
  }

  lemma {:induction false} BytesOfInterleave(labels: seq<string>, values: seq<string>)
    requires |labels| == |values|
    ensures Bytes(Interleave(labels, values)) == Total(labels) + Total(values)
  {
    if labels != [] {
      BytesOfConcat(labels[0] + values[0], Interleave(labels[1..], values[1..]));
      BytesOfConcat(labels[0], values[0]);
      BytesOfInterleave(labels[1..], values[1..]);
    }
  }

  // ---------------------------------------------------------------- untrusted text

  function HexDigit(d: nat): char
    requires d < 16
  {
    if d < 10 then Digit(d) else ('a' as int + d - 10) as char
  }

  /** A UTF-16 escape of a character of the basic plane. */
  function Hex(code: nat): (text: string)
    requires code < 0x10000
    ensures |text| == 6 && Ascii(text)
  {
    ['\\', 'u', HexDigit(code / 4096), HexDigit(code / 256 % 16), HexDigit(code / 16 % 16), HexDigit(code % 16)]
  }

  /** The characters that end a line or a quotation. */
  predicate Special(c: char) {
    c == '\\' || c == '\"' || c == '\r' || c == '\n' || c as int in {0x0b, 0x0c, 0x85, 0x2028, 0x2029}
  }

  function EscapeChar(c: char): (text: string)
    ensures text != ""
  {
    if c == '\\' then "\\\\" else if c == '\"' then "\\\""
    else if c == '\r' then "\\r" else if c == '\n' then "\\n"
    else if c as int == 0x0b then "\\v" else if c as int == 0x0c then "\\f"
    else if c as int in {0x85, 0x2028, 0x2029} then Hex(c as int)
    else [c]
  }

  function EscapeAll(text: string): string {
    if text == "" then "" else EscapeChar(text[0]) + EscapeAll(text[1..])
  }

  /** escapeUntrustedPromptText */
  function Escape(text: string): string { "\"" + EscapeAll(text) + "\"" }

  lemma EscapeCharExpands(c: char)
    ensures Bytes(EscapeChar(c)) <= 3 * Width(c)
    ensures c as int == 0x85 ==> Bytes(EscapeChar(c)) == 3 * Width(c)
  {
    if c as int in {0x85, 0x2028, 0x2029} {
      AsciiBytes(Hex(c as int));
    } else if Special(c) {
      AsciiBytes(EscapeChar(c));
    } else {
      assert [c][1..] == "";
    }
  }

  /** Escaping at most triples the text, and a next-line character is what triples. */
  lemma {:induction false} EscapeExpands(text: string)
    ensures Bytes(EscapeAll(text)) <= 3 * Bytes(text)
    ensures (forall i :: 0 <= i < |text| ==> text[i] as int == 0x85) ==> Bytes(EscapeAll(text)) == 3 * Bytes(text)
  {
    if text != "" {
      EscapeCharExpands(text[0]);
      EscapeExpands(text[1..]);
      BytesOfConcat(EscapeChar(text[0]), EscapeAll(text[1..]));
    }
  }

  predicate NextLine(c: char) { c as int == 0x85 }

  /** What one character's escape falls short of three times its width: nothing for a next-line character, else at
      least one byte, and two if its width is even. */
  lemma EscapeCharLoses(c: char)
    ensures var loss := 3 * Width(c) - Bytes(EscapeChar(c));
      if NextLine(c) then loss == 0 && Width(c) == 2 else if Width(c) % 2 == 0 then 2 <= loss else 1 <= loss
  {
    if c as int in {0x85, 0x2028, 0x2029} {
      AsciiBytes(Hex(c as int));
    } else if Special(c) {
      AsciiBytes(EscapeChar(c));
    } else {
      assert [c][1..] == "";
    }
  }

  function Loss(text: string): int { 3 * Bytes(text) - Bytes(EscapeAll(text)) }

  lemma LossSplits(text: string)
    requires text != ""
    ensures Loss(text) == 3 * Width(text[0]) - Bytes(EscapeChar(text[0])) + Loss(text[1..])
    ensures Bytes(text) == Width(text[0]) + Bytes(text[1..])
  {
    BytesOfConcat(EscapeChar(text[0]), EscapeAll(text[1..]));
  }

  /** A loss of none or one shows in the parity of the bytes. */
  predicate LossFits(loss: int, bytes: nat) { 0 <= loss && (loss < 2 ==> loss == bytes % 2) }

  /** Only text of next-line characters is tripled; any other text loses a byte, and two if it has an even number
      of bytes. */
  lemma {:induction false} EscapeLoses(text: string)
    ensures LossFits(Loss(text), Bytes(text))
    ensures Loss(text) == 0 ==> forall i :: 0 <= i < |text| ==> NextLine(text[i])
  {
    if text != "" {
      hide Bytes, EscapeChar, EscapeAll, Width, Loss, NextLine, LossFits;
      EscapeCharLoses(text[0]);
      LossSplits(text);
      EscapeLoses(text[1..]);
      ParityAdds(3 * Width(text[0]) - Bytes(EscapeChar(text[0])), Width(text[0]), NextLine(text[0]), Loss(text[1..]), Bytes(text[1..]));
      forall i | 0 <= i < |text| && Loss(text) == 0 ensures NextLine(text[i]) {
        if i > 0 { assert text[i] == text[1..][i - 1]; }
      }
    }
  }

  lemma ParityAdds(loss: int, width: nat, free: bool, rest: int, bytes: nat)
    requires if free then loss == 0 && width == 2 else if width % 2 == 0 then 2 <= loss else 1 <= loss
    requires LossFits(rest, bytes)
    ensures LossFits(loss + rest, width + bytes)
    ensures loss + rest == 0 ==> free && rest == 0
  {
  }

  lemma {:induction false} EscapeOfConcat(a: string, b: string)
    ensures EscapeAll(a + b) == EscapeAll(a) + EscapeAll(b)
  {
    if a == "" {
      assert a + b == b;
    } else {
      assert (a + b)[1..] == a[1..] + b;
      EscapeOfConcat(a[1..], b);
    }
  }

  lemma BytesOfEscape(text: string)
    ensures Bytes(Escape(text)) == 2 + Bytes(EscapeAll(text))
  {
    BytesOfConcat("\"" + EscapeAll(text), "\"");
    BytesOfConcat("\"", EscapeAll(text));
    AsciiBytes("\"");
  }

  /** The escaped text holds no line break, so the question cannot add a line to the prompt. */
  lemma {:induction false} EscapedIsOneLine(text: string)
    ensures forall i :: 0 <= i < |EscapeAll(text)| ==>
      (Special(EscapeAll(text)[i]) ==> EscapeAll(text)[i] == '\\' || EscapeAll(text)[i] == '\"')
  {
    if text != "" {
      EscapedIsOneLine(text[1..]);
      HexIsPlain(text[0]);
    }
  }

  lemma HexIsPlain(c: char)
    ensures forall i :: 0 <= i < |EscapeChar(c)| ==>
      (Special(EscapeChar(c)[i]) ==> EscapeChar(c)[i] == '\\' || EscapeChar(c)[i] == '\"')
  {
  }

  /** What a backslash and the next character stand for; the three long escapes are told apart by two digits. */
  function Unescape(text: string): (plain: string) {
    if text == "" then ""
    else if text[0] != '\\' || |text| == 1 then [text[0]] + Unescape(text[1..])
    else if text[1] == 'u' && |text| >= 6 then
      [(if text[4] == '8' then 0x85 else if text[5] == '8' then 0x2028 else 0x2029) as char] + Unescape(text[6..])
    else
      [match text[1] case 'r' => '\r' case 'n' => '\n' case 'v' => 0x0b as char case 'f' => 0x0c as char case c => c]
      + Unescape(text[2..])
  }

  lemma UnescapeChar(c: char, rest: string)
    ensures Unescape(EscapeChar(c) + rest) == [c] + Unescape(rest)
  {
    var text := EscapeChar(c) + rest;
    if c as int in {0x85, 0x2028, 0x2029} {
      assert text[6..] == rest;
    } else if Special(c) {
      assert text[2..] == rest;
    } else {
      assert text[1..] == rest;
    }
  }

  /** Nothing is lost: two questions never escape to the same text. */
  lemma {:induction false} EscapeRoundTrip(text: string)
    ensures Unescape(EscapeAll(text)) == text
  {
    if text != "" {
      UnescapeChar(text[0], EscapeAll(text[1..]));
      EscapeRoundTrip(text[1..]);
    }
  }

  function OrNone(value: string): string { if value == "" then "(none)" else value }

  // ---------------------------------------------------------------- history records

  function JsonChar(c: char): (text: string)
    ensures text != ""
  {
    if c == '\"' then "\\\"" else if c == '\\' then "\\\\"
    else if c as int == 8 then "\\b" else if c as int == 12 then "\\f"
    else if c == '\n' then "\\n" else if c == '\r' then "\\r" else if c == '\t' then "\\t"
    else if c as int < 0x20 || c in {'<', '>', '&'} || c as int in {0x2028, 0x2029} then Hex(c as int)
    else [c]
  }

  function JsonText(text: string): string {
    if text == "" then "" else JsonText(text[..|text| - 1]) + JsonChar(text[|text| - 1])
  }

  /** The encoder never needs more than six bytes for a character. */
  lemma JsonCharWidth(c: char)
    ensures 1 <= Bytes(JsonChar(c)) <= 6
  {
    if Ascii(JsonChar(c)) { AsciiBytes(JsonChar(c)); } else { assert [c][1..] == ""; }
  }

  lemma JsonOfLast(a: string, c: char)
    ensures JsonText(a + [c]) == JsonText(a) + JsonChar(c)
  {
    assert (a + [c])[..|a|] == a;
    hide JsonChar;
  }

  lemma {:induction false} JsonOfConcat(a: string, b: string)
    ensures JsonText(a + b) == JsonText(a) + JsonText(b)
  {
    hide JsonChar, JsonText;
    if b == "" {
      assert a + b == a;
      NoJson();
    } else {
      var n := |b| - 1;
      assert a + b == a + b[..n] + [b[n]] && b == b[..n] + [b[n]];
      JsonOfLast(a + b[..n], b[n]);
      JsonOfLast(b[..n], b[n]);
      JsonOfConcat(a, b[..n]);
    }
  }

  lemma NoJson()
    ensures JsonText("") == ""
  {
  }

  function DigitValue(c: char): nat { if '0' <= c <= '9' then c as int - '0' as int else if 'a' <= c <= 'f' then c as int - 'a' as int + 10 else 0 }

  /** The character a JSON escape stands for. */
  function UnJson(text: string): (plain: string) {
    if text == "" then ""
    else if text[0] != '\\' || |text| == 1 then [text[0]] + UnJson(text[1..])
    else if text[1] == 'u' && |text| >= 6 then
      var code := 4096 * DigitValue(text[2]) + 256 * DigitValue(text[3]) + 16 * DigitValue(text[4]) + DigitValue(text[5]);
      [if code < 0xd800 then code as char else '?'] + UnJson(text[6..])
    else
      [match text[1] case 'b' => 8 as char case 'f' => 12 as char case 'n' => '\n' case 'r' => '\r' case 't' => '\t' case c => c]
      + UnJson(text[2..])
  }

  lemma DigitReads(d: nat)
    requires d < 16
    ensures DigitValue(HexDigit(d)) == d
  {
  }

  lemma HexDecodes(code: nat)
    requires code < 0x10000
    ensures var text := Hex(code);
      4096 * DigitValue(text[2]) + 256 * DigitValue(text[3]) + 16 * DigitValue(text[4]) + DigitValue(text[5]) == code
  {
    hide DigitValue, HexDigit;
    DigitReads(code / 4096);
    DigitReads(code / 256 % 16);
    DigitReads(code / 16 % 16);
    DigitReads(code % 16);
    assert code == 16 * (code / 16) + code % 16 && code / 16 == 16 * (code / 256) + code / 16 % 16;
    assert code / 256 == 16 * (code / 4096) + code / 256 % 16;
  }

  lemma UnJsonChar(c: char, rest: string)
    ensures UnJson(JsonChar(c) + rest) == [c] + UnJson(rest)
  {
    var text := JsonChar(c) + rest;
    if |JsonChar(c)| == 6 {
      assert JsonChar(c) == Hex(c as int);
      HexDecodes(c as int);
      hide DigitValue, HexDigit;
      assert text[6..] == rest;
    } else if |JsonChar(c)| == 2 {
      assert text[2..] == rest;
    } else {
      assert text[1..] == rest;
    }
  }

  /** A record's text can be read back, whatever it is. */
  lemma {:induction false} JsonRoundTrip(text: string)
    ensures UnJson(JsonText(text)) == text
  {
    if text != "" {
      assert text == [text[0]] + text[1..];
      JsonOfConcat([text[0]], text[1..]);
      assert JsonText([text[0]]) == JsonChar(text[0]) by { assert [text[0]][..0] == "" && JsonText("") == ""; }
      hide JsonText, JsonChar;
      UnJsonChar(text[0], JsonText(text[1..]));
      JsonRoundTrip(text[1..]);
    }
  }

  /** The text breaks no line. */
  predicate Flat(text: string) { forall c <- text :: c != '\n' && c != '\r' }

  lemma {:induction false} JsonIsFlat(text: string)
    ensures Flat(JsonText(text))
  {
    if text != "" {
      JsonIsFlat(text[..|text| - 1]);
      CharIsFlat(text[|text| - 1]);
    }
  }

  lemma CharIsFlat(c: char)
    ensures Flat(JsonChar(c))
  {
  }

  function Quoted(text: string): string { "\"" + JsonText(text) + "\"" }

  function Member(key: string, value: string): string { ",\"" + key + "\":" + value }

  function Optional(key: string, value: string): string { if value == "" then "" else Member(key, Quoted(value)) }

  function Truth(b: bool): string { if b then "true" else "false" }

  /** One update or answer of a Work's history. */
  datatype Entry = Entry(
    sequence: nat, answer: bool, status: string, actor: string, message: string,
    url: string, headBranch: string, headSha: string, checkpoint: string, acceptedAt: int, trusted: bool)

  const OPENING := "{\"sequence\":"
  const MESSAGE := ",\"message\":\""
  const QUOTE := "\""
  const CLOSING := "}"

  function BeforeMessage(e: Entry): string {
    OPENING + Decimal(e.sequence) + Member("kind", Quoted(if e.answer then "answer" else "update"))
    + Optional("status", e.status) + Member("actor", Quoted(e.actor)) + MESSAGE
  }

  function RestOf(e: Entry): string {
    QUOTE + Optional("pull_request_url", e.url) + Optional("pull_request_head_branch", e.headBranch)
    + Optional("pull_request_head_sha", e.headSha) + Optional("checkpoint_sha", e.checkpoint)
    + Member("accepted_at_millis", Signed(e.acceptedAt)) + Member("trusted", Truth(e.trusted))
  }

  function AfterMessage(e: Entry, truncated: bool): string {
    RestOf(e) + (if truncated then Member("message_truncated", "true") else "") + CLOSING
  }

  function Json(e: Entry, truncated: bool): string {
    BeforeMessage(e) + JsonText(e.message) + AfterMessage(e, truncated)
  }

  lemma BytesOfJson(e: Entry, truncated: bool)
    ensures Bytes(Json(e, truncated)) == Bytes(BeforeMessage(e)) + Bytes(JsonText(e.message)) + Bytes(AfterMessage(e, truncated))
  {
    BytesOfConcat(BeforeMessage(e) + JsonText(e.message), AfterMessage(e, truncated));
    BytesOfConcat(BeforeMessage(e), JsonText(e.message));
  }

  /** Every record, truncated or not, takes at least 76 bytes. */
  lemma RecordsAreLong(e: Entry, truncated: bool)
    ensures 76 <= Bytes(Json(e, truncated))
  {
    assert |BeforeMessage(e)| >= 36;
    assert |AfterMessage(e, truncated)| >= 40;
  }

  lemma {:induction false} NumbersAreFlat(n: nat)
    ensures Flat(Decimal(n))
  {
    if n >= 10 { NumbersAreFlat(n / 10); }
  }

  lemma FlatParts(a: string, b: string)
    requires Flat(a) && Flat(b)
    ensures Flat(a + b)
  {
  }

  lemma FlatMember(key: string, value: string)
    requires Flat(key)
    ensures Flat(Quoted(value)) && Flat(Optional(key, value)) && (Flat(value) ==> Flat(Member(key, value)))
  {
    JsonIsFlat(value);
    hide JsonText;
  }

  lemma ShortKeysAreFlat()
    ensures Flat("kind") && Flat("status") && Flat("actor") && Flat(OPENING) && Flat(MESSAGE)
    ensures Flat(QUOTE) && Flat(CLOSING) && Flat("")
  {
  }

  lemma LongKeysAreFlat()
    ensures Flat("pull_request_url") && Flat("pull_request_head_branch") && Flat("pull_request_head_sha")
  {
  }

  lemma LastKeysAreFlat()
    ensures Flat("checkpoint_sha") && Flat("accepted_at_millis") && Flat("trusted") && Flat("message_truncated")
    ensures Flat(Truth(true)) && Flat(Truth(false))
  {
  }

  lemma KeysAreFlat()
    ensures Flat("kind") && Flat("status") && Flat("actor") && Flat(OPENING) && Flat(MESSAGE)
    ensures Flat("pull_request_url") && Flat("pull_request_head_branch") && Flat("pull_request_head_sha") && Flat("checkpoint_sha")
    ensures Flat("accepted_at_millis") && Flat("trusted") && Flat("message_truncated") && Flat(QUOTE) && Flat(CLOSING) && Flat("")
    ensures Flat(Truth(true)) && Flat(Truth(false))
  {
    hide Flat, Truth;
    ShortKeysAreFlat();
    LongKeysAreFlat();
    LastKeysAreFlat();
  }

  lemma SignedIsFlat(n: int)
    ensures Flat(Signed(n))
  {
    NumbersAreFlat(if n < 0 then -n else n);
    hide Decimal;
  }

  lemma BeforeIsFlat(e: Entry)
    ensures Flat(BeforeMessage(e))
  {
    hide Flat, JsonText, Optional, Member, Quoted, Decimal;
    KeysAreFlat();
    NumbersAreFlat(e.sequence);
    var kind := if e.answer then "answer" else "update";
    FlatMember("kind", kind);
    FlatMember("kind", Quoted(kind));
    FlatMember("status", e.status);
    FlatMember("actor", e.actor);
    FlatMember("actor", Quoted(e.actor));
    FlatParts(OPENING, Decimal(e.sequence));
    FlatParts(OPENING + Decimal(e.sequence), Member("kind", Quoted(kind)));
    FlatParts(OPENING + Decimal(e.sequence) + Member("kind", Quoted(kind)), Optional("status", e.status));
    FlatParts(OPENING + Decimal(e.sequence) + Member("kind", Quoted(kind)) + Optional("status", e.status), Member("actor", Quoted(e.actor)));
    FlatParts(OPENING + Decimal(e.sequence) + Member("kind", Quoted(kind)) + Optional("status", e.status)
              + Member("actor", Quoted(e.actor)), MESSAGE);
  }

  lemma RestIsFlat(e: Entry)
    ensures Flat(RestOf(e))
  {
    hide Flat, JsonText, Optional, Member, Quoted, Decimal, Signed, Truth;
    KeysAreFlat();
    SignedIsFlat(e.acceptedAt);
    FlatMember("pull_request_url", e.url);
    FlatMember("pull_request_head_branch", e.headBranch);
    FlatMember("pull_request_head_sha", e.headSha);
    FlatMember("checkpoint_sha", e.checkpoint);
    FlatMember("accepted_at_millis", Signed(e.acceptedAt));
    FlatMember("trusted", Truth(e.trusted));
    assert Flat(Truth(e.trusted)) by { if e.trusted {} }
    var one := QUOTE + Optional("pull_request_url", e.url);
    FlatParts(QUOTE, Optional("pull_request_url", e.url));
    var two := one + Optional("pull_request_head_branch", e.headBranch);
    FlatParts(one, Optional("pull_request_head_branch", e.headBranch));
    var three := two + Optional("pull_request_head_sha", e.headSha);
    FlatParts(two, Optional("pull_request_head_sha", e.headSha));
    var four := three + Optional("checkpoint_sha", e.checkpoint);
    FlatParts(three, Optional("checkpoint_sha", e.checkpoint));
    var five := four + Member("accepted_at_millis", Signed(e.acceptedAt));
    FlatParts(four, Member("accepted_at_millis", Signed(e.acceptedAt)));
    FlatParts(five, Member("trusted", Truth(e.trusted)));
  }

  /** A record is one line of the prompt, whatever the agent or the operator wrote. */
  lemma RecordIsOneLine(e: Entry, truncated: bool)
    ensures Flat(Json(e, truncated))
  {
    hide Flat, JsonText, Member, BeforeMessage, RestOf;
    KeysAreFlat();
    BeforeIsFlat(e);
    RestIsFlat(e);
    JsonIsFlat(e.message);
    assert Truth(true) == "true";
    FlatMember("message_truncated", "true");
    FlatParts(RestOf(e), if truncated then Member("message_truncated", "true") else "");
    FlatParts(RestOf(e) + (if truncated then Member("message_truncated", "true") else ""), CLOSING);
    FlatParts(BeforeMessage(e), JsonText(e.message));
    FlatParts(BeforeMessage(e) + JsonText(e.message), AfterMessage(e, truncated));
  }

  lemma MemberIsLong(key: string, value: string)
    ensures |Member(key, value)| >= 4
  {
  }

  /** The truncation mark only makes a record longer. */
  lemma MarkIsLonger(e: Entry)
    ensures Bytes(Json(e, false)) < Bytes(Json(e, true))
  {
    BytesOfJson(e, false);
    BytesOfJson(e, true);
    var mark := Member("message_truncated", "true");
    hide Json, BeforeMessage, JsonText, RestOf, Member;
    assert RestOf(e) + "" == RestOf(e);
    BytesOfConcat(RestOf(e), "}");
    BytesOfConcat(RestOf(e) + mark, "}");
    BytesOfConcat(RestOf(e), mark);
    assert mark != "" by { MemberIsLong("message_truncated", "true"); }
  }

  lemma MessageAside(e: Entry, message: string)
    ensures BeforeMessage(e.(message := message)) == BeforeMessage(e)
    ensures AfterMessage(e.(message := message), true) == AfterMessage(e, true)
  {
  }

  /** A longer message makes a longer record, by at most six bytes a character. */
  lemma OneMoreCharacter(e: Entry, k: nat)
    requires k < |e.message|
    ensures Bytes(Json(e.(message := e.message[..k]), true)) < Bytes(Json(e.(message := e.message[..k + 1]), true))
    ensures Bytes(Json(e.(message := e.message[..k + 1]), true)) <= Bytes(Json(e.(message := e.message[..k]), true)) + 6
  {
    var short, long := e.(message := e.message[..k]), e.(message := e.message[..k + 1]);
    hide Json, BeforeMessage, AfterMessage, Bytes, JsonText;
    BytesOfJson(short, true);
    BytesOfJson(long, true);
    MessageAside(e, e.message[..k]);
    MessageAside(e, e.message[..k + 1]);
    JsonTextGrows(e.message, k);
  }

  lemma JsonTextGrows(message: string, k: nat)
    requires k < |message|
    ensures Bytes(JsonText(message[..k])) < Bytes(JsonText(message[..k + 1])) <= Bytes(JsonText(message[..k])) + 6
  {
    hide JsonChar;
    assert message[..k + 1][..k] == message[..k];
    BytesOfConcat(JsonText(message[..k]), JsonChar(message[k]));
    JsonCharWidth(message[k]);
  }

  lemma {:induction false} LongerMessage(e: Entry, j: nat, k: nat)
    requires j <= k <= |e.message|
    ensures Bytes(Json(e.(message := e.message[..j]), true)) <= Bytes(Json(e.(message := e.message[..k]), true))
    decreases k
  {
    hide Json, Bytes;
    if j < k {
      LongerMessage(e, j, k - 1);
      OneMoreCharacter(e, k - 1);
    }
  }
}

/** Conversation keys: contracts/conversation.py, with percent-encoding after section 2.1 of RFC 3986 over UTF-8. */
module Conversations {
  import opened Text

  datatype ChatKind = DIRECT | GROUP | CHANNEL

  datatype ConversationKey = ConversationKey(connectionId: string, chatKind: ChatKind, chatId: string,
                                             threadId: Option<string>)

  type Byte = b: int | 0 <= b < 256

  // ------------------------------------------------------------ UTF-8

  /** One to four bytes of six bits each, after the first. */
  function Utf8Char(c: char): seq<Byte> {
    var n := c as int;
    if n < 0x80 then [n]
    else if n < 0x800 then [0xC0 + n / 64, 0x80 + n % 64]
    else if n < 0x10000 then [0xE0 + n / 64 / 64, 0x80 + n / 64 % 64, 0x80 + n % 64]
    else [0xF0 + n / 64 / 64 / 64, 0x80 + n / 64 / 64 % 64, 0x80 + n / 64 % 64, 0x80 + n % 64]
  }

  function Utf8(s: string): seq<Byte> {
    if s == "" then [] else Utf8Char(s[0]) + Utf8(s[1..])
  }

  /** How many bytes the character that starts with this byte takes. */
  function Width(first: Byte): nat {
    if first < 0x80 then 1 else if first < 0xE0 then 2 else if first < 0xF0 then 3 else 4
  }

  function CodePoint(b: seq<Byte>): int
    requires |b| > 0 && |b| == Width(b[0])
  {
    var n: int := b[0];
    if |b| == 1 then n
    else if |b| == 2 then Six(n - 0xC0, b[1])
    else if |b| == 3 then Six(Six(n - 0xE0, b[1]), b[2])
    else Six(Six(Six(n - 0xF0, b[1]), b[2]), b[3])
  }

  /** Six more bits from a continuation byte. */
  function Six(n: int, b: Byte): int {
    n * 64 + (b as int - 0x80)
  }

  predicate Scalar(n: int) {
    0 <= n < 0xD800 || 0xE000 <= n < 0x110000
  }

  function FromUtf8(b: seq<Byte>): Option<string> {
    if b == [] then Some("")
    else if |b| < Width(b[0]) then None
    else
      var w := Width(b[0]);
      var n := CodePoint(b[..w]);
      if !Scalar(n) then None
      else
        var rest := FromUtf8(b[w..]);
        if rest.None? then None else Some([n as char] + rest.value)
  }

  lemma Utf8CharDecodes(c: char)
    ensures var b := Utf8Char(c); |b| == Width(b[0]) && CodePoint(b) == c as int && Scalar(c as int)
  {
  }

  lemma {:induction false} Utf8RoundTrip(s: string)
    ensures FromUtf8(Utf8(s)) == Some(s)
  {
    if s != "" {
      var first, rest := Utf8Char(s[0]), Utf8(s[1..]);
      Utf8CharDecodes(s[0]);
      Utf8RoundTrip(s[1..]);
      assert (first + rest)[..|first|] == first && (first + rest)[|first|..] == rest;
      assert [s[0]] + s[1..] == s;
    }
  }

  // ------------------------------------------------------------ percent-encoding

  predicate Unreserved(b: Byte) {
    || 'A' as int <= b <= 'Z' as int || 'a' as int <= b <= 'z' as int || '0' as int <= b <= '9' as int
    || b == '_' as int || b == '.' as int || b == '-' as int || b == '~' as int
  }

  function Hex(d: int): char
    requires 0 <= d < 16
  {
    if d < 10 then ('0' as int + d) as char else ('A' as int + d - 10) as char
  }

  function FromHex(c: char): int {
    if '0' <= c <= '9' then c as int - '0' as int
    else if 'A' <= c <= 'F' then c as int - 'A' as int + 10
    else -1
  }

  function EscapeByte(b: Byte): string {
    if Unreserved(b) then [b as char] else ['%', Hex(b / 16), Hex(b % 16)]
  }

  function Escape(b: seq<Byte>): string {
    if b == [] then "" else EscapeByte(b[0]) + Escape(b[1..])
  }

  function Unescape(s: string): Option<seq<Byte>> {
    if s == "" then Some([])
    else if s[0] != '%' then
      if s[0] as int >= 256 then None
      else
        var rest := Unescape(s[1..]);
        if rest.None? then None else Some([s[0] as int] + rest.value)
    else if |s| < 3 || FromHex(s[1]) < 0 || FromHex(s[2]) < 0 then None
    else
      var rest := Unescape(s[3..]);
      if rest.None? then None else Some([FromHex(s[1]) * 16 + FromHex(s[2])] + rest.value)
  }

  lemma HexRoundTrip(b: Byte)
    ensures FromHex(Hex(b / 16)) == b / 16 && FromHex(Hex(b % 16)) == b % 16
    ensures Hex(b / 16) != ':' && Hex(b % 16) != ':'
  {
  }

  lemma {:induction false} EscapeRoundTrip(b: seq<Byte>)
    ensures Unescape(Escape(b)) == Some(b)
  {
    if b != [] {
      var first, rest := EscapeByte(b[0]), Escape(b[1..]);
      EscapeRoundTrip(b[1..]);
      HexRoundTrip(b[0]);
      assert (first + rest)[|first|..] == rest;
      assert [b[0]] + b[1..] == b;
    }
  }

  predicate NoColon(s: string) {
    forall i | 0 <= i < |s| :: s[i] != ':'
  }

  lemma {:induction false} EscapeHasNoColon(b: seq<Byte>)
    ensures NoColon(Escape(b))
  {
    if b != [] {
      EscapeHasNoColon(b[1..]);
      HexRoundTrip(b[0]);
    }
  }

  /** quote(s, safe="") */
  function Quote(s: string): string {
    Escape(Utf8(s))
  }

  function Unquote(s: string): Option<string> {
    match Unescape(s)
    case None => None
    case Some(b) => FromUtf8(b)
  }

  /** Quoting loses nothing, and leaves no ':' behind. */
  lemma QuoteRoundTrip(s: string)
    ensures Unquote(Quote(s)) == Some(s) && NoColon(Quote(s))
  {
    Utf8RoundTrip(s);
    EscapeRoundTrip(Utf8(s));
    EscapeHasNoColon(Utf8(s));
  }

  const HEX := "0123456789ABCDEF"

  /** The escape of one byte, in upper case. */
  function Percent(b: Byte): string {
    ['%', HEX[b / 16], HEX[b % 16]]
  }

  function Percents(b: seq<Byte>): string {
    if b == [] then "" else Percent(b[0]) + Percents(b[1..])
  }

  /** The shortest form: a first byte, and continuation bytes from 0x80 to 0xBF. */
  lemma Utf8Widths(c: char)
    ensures |Utf8Char(c)| == if c as int < 0x80 then 1 else if c as int < 0x800 then 2
                             else if c as int < 0x10000 then 3 else 4
    ensures forall i | 0 < i < |Utf8Char(c)| :: 0x80 <= Utf8Char(c)[i] < 0xC0
    ensures c as int >= 0x80 ==> Utf8Char(c)[0] >= 0xC0
  {
  }

  lemma {:induction false} Utf8Concat(a: string, b: string)
    ensures Utf8(a + b) == Utf8(a) + Utf8(b)
  {
    if a == "" {
      assert a + b == b;
    } else {
      Utf8Concat(a[1..], b);
      assert (a + b)[0] == a[0] && (a + b)[1..] == a[1..] + b;
    }
  }

  lemma Associates(a: string, b: string, c: string)
    ensures (a + b) + c == a + (b + c)
  {
  }

  lemma EscapeCons(n: Byte, rest: seq<Byte>)
    ensures Escape([n] + rest) == EscapeByte(n) + Escape(rest)
  {
    assert ([n] + rest)[1..] == rest;
  }

  lemma {:induction false} EscapeConcat(a: seq<Byte>, b: seq<Byte>)
    ensures Escape(a + b) == Escape(a) + Escape(b)
  {
    if a == [] {
      assert a + b == b;
    } else {
      EscapeConcat(a[1..], b);
      EscapeCons(a[0], a[1..] + b);
      assert a + b == [a[0]] + (a[1..] + b);
      Associates(EscapeByte(a[0]), Escape(a[1..]), Escape(b));
    }
  }

  lemma HexDigits(d: int)
    requires 0 <= d < 16
    ensures Hex(d) == HEX[d]
  {
  }

  lemma PercentIs(b: Byte)
    requires !Unreserved(b)
    ensures EscapeByte(b) == Percent(b)
  {
    HexDigits(b / 16);
    HexDigits(b % 16);
  }

  lemma {:induction false} EscapeWide(b: seq<Byte>)
    requires forall i | 0 <= i < |b| :: b[i] >= 0x80
    ensures Escape(b) == Percents(b)
  {
    if b != [] {
      EscapeWide(b[1..]);
      PercentIs(b[0]);
    }
  }

  predicate Plain(c: char) {
    'A' <= c <= 'Z' || 'a' <= c <= 'z' || '0' <= c <= '9' || c in "_.-~"
  }

  lemma PlainIff(c: char, n: Byte)
    requires n == c as int
    ensures Unreserved(n) <==> Plain(c)
    ensures Unreserved(n) ==> n as char == c
  {
  }

  lemma EscapeOne(n: Byte)
    ensures Escape([n]) == EscapeByte(n) && Percents([n]) == Percent(n)
  {
    assert [n][1..] == [];
  }

  lemma EscapeChar(c: char)
    ensures Escape(Utf8Char(c)) == if Plain(c) then [c] else Percents(Utf8Char(c))
  {
    Utf8Widths(c);
    if c as int >= 0x80 {
      EscapeWide(Utf8Char(c));
    } else {
      var n: Byte := c as int;
      EscapeOne(n);
      PlainIff(c, n);
      if !Unreserved(n) { PercentIs(n); }
    }
  }

  /**
   * Quoting goes character by character: letters, digits and "_.-~" stay, and of every other character each UTF-8 byte
   * is escaped.
   */
  lemma QuoteIs(a: string, c: char)
    ensures Quote(a + [c]) == Quote(a) + if Plain(c) then [c] else Percents(Utf8Char(c))
  {
    Utf8Concat(a, [c]);
    Utf8One(c);
    EscapeConcat(Utf8(a), Utf8Char(c));
    EscapeChar(c);
  }

  lemma Utf8One(c: char)
    ensures Utf8([c]) == Utf8Char(c)
  {
    assert [c][1..] == "";
  }

  // ------------------------------------------------------------ the key

  /** ":".join(parts) */
  function Join(parts: seq<string>): string
    requires parts != []
  {
    if |parts| == 1 then parts[0] else parts[0] + ":" + Join(parts[1..])
  }

  function Colon(s: string): nat {
    if s == "" || s[0] == ':' then 0 else 1 + Colon(s[1..])
  }

  lemma {:induction false} ColonWithin(s: string)
    ensures Colon(s) <= |s|
  {
    if s != "" && s[0] != ':' { ColonWithin(s[1..]); }
  }

  function Split(s: string): (r: seq<string>)
    decreases |s|
  {
    ColonWithin(s);
    var n := Colon(s);
    if n == |s| then [s] else [s[..n]] + Split(s[n + 1..])
  }

  lemma {:induction false} ColonAfter(a: string, rest: string)
    requires NoColon(a)
    ensures Colon(a) == |a| && Colon(a + ":" + rest) == |a|
  {
    if a != "" {
      ColonAfter(a[1..], rest);
      assert (a + ":" + rest)[1..] == a[1..] + ":" + rest;
    }
  }

  /** Parts without ':' are recovered from their join. */
  lemma {:induction false} SplitJoin(parts: seq<string>)
    requires parts != [] && forall i | 0 <= i < |parts| :: NoColon(parts[i])
    ensures Split(Join(parts)) == parts
  {
    var first := parts[0];
    if |parts| == 1 {
      ColonAfter(first, "");
    } else {
      var rest := Join(parts[1..]);
      SplitJoin(parts[1..]);
      ColonAfter(first, rest);
      var s := first + ":" + rest;
      assert s[..|first|] == first && s[|first| + 1..] == rest;
      assert [first] + parts[1..] == parts;
    }
  }

  function KindName(k: ChatKind): string {
    match k
    case DIRECT => "DIRECT"
    case GROUP => "GROUP"
    case CHANNEL => "CHANNEL"
  }

  function KindNamed(s: string): Option<ChatKind> {
    if s == "DIRECT" then Some(DIRECT) else if s == "GROUP" then Some(GROUP) else if s == "CHANNEL" then Some(CHANNEL)
      else None
  }

  lemma KindRoundTrip(k: ChatKind)
    ensures KindNamed(KindName(k)) == Some(k) && NoColon(KindName(k))
  {
    assert "DIRECT"[0] == 'D' && "GROUP"[0] == 'G' && "CHANNEL"[0] == 'C';
  }

  function KeyParts(k: ConversationKey): seq<string> {
    ["v1", Quote(k.connectionId), KindName(k.chatKind), Quote(k.chatId)]
    + if k.threadId.None? then ["0"] else ["1", Quote(k.threadId.value)]
  }

  function StableKey(k: ConversationKey): string {
    Join(KeyParts(k))
  }

  function ParseParts(parts: seq<string>): Option<ConversationKey> {
    if |parts| < 5 || parts[0] != "v1" then None
    else
      var connection, kind, chat := Unquote(parts[1]), KindNamed(parts[2]), Unquote(parts[3]);
      if connection.None? || kind.None? || chat.None? then None
      else if |parts| == 5 && parts[4] == "0" then Some(ConversationKey(connection.value, kind.value, chat.value, None))
      else if |parts| == 6 && parts[4] == "1" && Unquote(parts[5]).Some? then
        Some(ConversationKey(connection.value, kind.value, chat.value, Unquote(parts[5])))
      else None
  }

  /** A key can be read back. */
  function ParseKey(s: string): Option<ConversationKey> {
    ParseParts(Split(s))
  }

  lemma NoColonParts(a: string, b: string, c: string, d: string, tail: seq<string>)
    requires NoColon(a) && NoColon(b) && NoColon(c) && NoColon(d) && forall i | 0 <= i < |tail| :: NoColon(tail[i])
    ensures var parts := [a, b, c, d] + tail; forall i | 0 <= i < |parts| :: NoColon(parts[i])
  {
  }

  lemma KeyPartsHaveNoColon(k: ConversationKey)
    ensures forall i | 0 <= i < |KeyParts(k)| :: NoColon(KeyParts(k)[i])
  {
    var connection, kind, chat := Quote(k.connectionId), KindName(k.chatKind), Quote(k.chatId);
    var tail := if k.threadId.None? then ["0"] else ["1", Quote(k.threadId.value)];
    QuoteRoundTrip(k.connectionId);
    QuoteRoundTrip(k.chatId);
    if k.threadId.Some? { QuoteRoundTrip(k.threadId.value); }
    KindRoundTrip(k.chatKind);
    NoColonParts("v1", connection, kind, chat, tail);
  }

  lemma PartsRoundTrip(k: ConversationKey)
    ensures ParseParts(KeyParts(k)) == Some(k)
  {
    QuoteRoundTrip(k.connectionId);
    QuoteRoundTrip(k.chatId);
    if k.threadId.Some? { QuoteRoundTrip(k.threadId.value); }
    KindRoundTrip(k.chatKind);
  }

  /** Every stable key decodes to the conversation it was made from. */
  lemma StableKeyRoundTrip(k: ConversationKey)
    ensures ParseKey(StableKey(k)) == Some(k)
  {
    KeyPartsHaveNoColon(k);
    SplitJoin(KeyParts(k));
    PartsRoundTrip(k);
  }

  /** Equal keys mean the same connection, kind, chat and thread; a missing thread is told apart from every thread. */
  lemma StableKeyIsInjective(a: ConversationKey, b: ConversationKey)
    ensures StableKey(a) == StableKey(b) <==> a == b
  {
    StableKeyRoundTrip(a);
    StableKeyRoundTrip(b);
  }

  lemma JoinStep(part: string, rest: seq<string>)
    requires rest != []
    ensures Join([part] + rest) == part + ":" + Join(rest)
  {
    assert ([part] + rest)[1..] == rest;
  }

  /** "v1", the connection, the kind's name, the chat and whether there is a thread, and if so the thread. */
  lemma StableKeyIs(k: ConversationKey)
    ensures StableKey(k) ==
            "v1:" + (Quote(k.connectionId) + ":" + (KindName(k.chatKind) + ":" + (Quote(k.chatId) + ":" +
              if k.threadId.None? then "0" else "1:" + Quote(k.threadId.value))))
  {
    var c, n, q := Quote(k.connectionId), KindName(k.chatKind), Quote(k.chatId);
    var tail := if k.threadId.None? then ["0"] else ["1", Quote(k.threadId.value)];
    assert Join(tail) == if k.threadId.None? then "0" else "1:" + Quote(k.threadId.value);
    JoinStep(q, tail);
    JoinStep(n, [q] + tail);
    JoinStep(c, [n] + ([q] + tail));
    JoinStep("v1", [c] + ([n] + ([q] + tail)));
    assert KeyParts(k) == ["v1"] + ([c] + ([n] + ([q] + tail)));
    assert "v1" + ":" == "v1:";
  }
}

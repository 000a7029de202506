/**
 * Signed tokens and signature headers (internal/hmac): what is printed is accepted, and nothing else is. The message
 * authentication code (section 2 of RFC 2104) is an arbitrary function to 32 bytes.
 */
module Signatures {
  import opened Wrappers
  import opened Encodings
  import P = Protocol
  import T = Timestamps

  const MAX_TOKEN_BYTES := 8192
  const SIGNATURE_HEX_LENGTH := 64
  const REPLAY_WINDOW := 300
  const KEY_SIZE := 32
  const RECONCILE_SCHEME := "Subscription-Bridge-HMAC"

  datatype SignatureError = InvalidToken | InvalidSignature | InvalidTime | OutsideWindow | InvalidRoot

  /** The code, and the conversion of text to lower case. */
  datatype Crypto = Crypto(mac: (Bytes, Bytes) -> Bytes, lower: string -> string)

  /** The code has 32 bytes; lowercase hexadecimal digits are lower case already. */
  ghost predicate Sound(c: Crypto) {
    && (forall key, message :: |c.mac(key, message)| == 32)
    && (forall s :: LowerHex(s) ==> c.lower(s) == s)
  }

  // ---------- signing ----------

  function Sign(c: Crypto, key: Bytes, message: Bytes): string {
    Hex(c.mac(key, message))
  }

  function Verify(c: Crypto, key: Bytes, message: Bytes, signature: string): Result<(), SignatureError> {
    if !(P.Utf8Length(signature) == SIGNATURE_HEX_LENGTH && c.lower(signature) == signature)
      then Failure(InvalidSignature) else
    :- Need(LowerHex(signature), InvalidSignature);
    :- Need(Unhex(signature) == Some(c.mac(key, message)), InvalidSignature);
    Success(())
  }

  predicate Ascii(s: string) {
    forall c :: c in s ==> c as int < 0x80
  }

  lemma {:induction false} AsciiLength(s: string)
    requires Ascii(s)
    ensures P.Utf8Length(s) == |s|
  {
    if s != "" {
      assert s[0] in s;
      forall c | c in s[1..] ensures c in s {
      }
      AsciiLength(s[1..]);
    }
  }

  lemma {:induction false} LengthBound(s: string)
    ensures P.Utf8Length(s) >= |s|
  {
    if s != "" {
      LengthBound(s[1..]);
    }
  }

  /** The only accepted signature of a message is the one that is printed. */
  lemma SignatureExact(c: Crypto, key: Bytes, message: Bytes, signature: string)
    requires Sound(c)
    ensures Verify(c, key, message, signature).Success? <==> signature == Sign(c, key, message)
  {
    if LowerHex(signature) {
      UnhexExact(signature, c.mac(key, message));
      AsciiLength(signature);
    }
  }

  /** The digits are checked one by one before anything is decoded. */
  method CheckDigits(s: string) returns (ok: bool)
    ensures ok == LowerHex(s)
  {
    var i := 0;
    while i < |s|
      invariant 0 <= i <= |s|
      invariant forall k :: 0 <= k < i ==> IsLowerHex(s[k])
    {
      if !IsLowerHex(s[i]) {
        assert s[i] in s;
        return false;
      }
      i := i + 1;
    }
    ok := true;
  }

  /** The pairing root: accepted if and only if it is the lowercase hexadecimal of 32 bytes, which it yields. */
  method ParsePairingRoot(configured: string) returns (r: Result<Bytes, SignatureError>)
    ensures forall root: Bytes :: r == Success(root) <==> |root| == KEY_SIZE && configured == Hex(root)
  {
    var digits := CheckDigits(configured);
    if P.Utf8Length(configured) != 64 || !digits {
      forall root: Bytes | |root| == KEY_SIZE && configured == Hex(root) ensures false {
        AsciiLength(configured);
      }
      return Failure(InvalidRoot);
    }
    AsciiLength(configured);
    var decoded := Unhex(configured);
    forall root: Bytes ensures decoded == Some(root) <==> configured == Hex(root) {
      UnhexExact(configured, root);
    }
    HexOnto(configured);
    r := Success(decoded.value);
  }

  lemma {:induction false} HexOnto(s: string)
    requires LowerHex(s) && |s| % 2 == 0
    ensures Unhex(s).Some?
  {
    if s != "" {
      HexOnto(s[2..]);
    }
  }

  // ---------- tokens ----------

  function Count(s: string, c: char): nat {
    if s == "" then 0 else (if s[0] == c then 1 else 0) + Count(s[1..], c)
  }

  /** The position of the first `c`. */
  function IndexOf(s: string, c: char): (i: nat)
    requires c in s
    ensures i < |s| && s[i] == c && c !in s[..i]
  {
    if s[0] == c then 0 else
      assert s == [s[0]] + s[1..];
      var i := IndexOf(s[1..], c);
      assert s[..i + 1] == [s[0]] + s[1..][..i];
      i + 1
  }

  lemma {:induction false} CountZero(s: string, c: char)
    ensures Count(s, c) == 0 <==> c !in s
  {
    if s != "" {
      CountZero(s[1..], c);
      assert s == [s[0]] + s[1..];
    }
  }

  lemma {:induction false} CountSplit(a: string, b: string, c: char)
    ensures Count(a + b, c) == Count(a, c) + Count(b, c)
  {
    if a == "" {
      assert a + b == b;
    } else {
      CountSplit(a[1..], b, c);
      assert (a + b)[1..] == a[1..] + b;
    }
  }

  /** The two parts of a text around its only separator. */
  function Parts(s: string, separator: char): Option<(string, string)> {
    if Count(s, separator) != 1 then None else
      CountZero(s, separator);
      var i := IndexOf(s, separator);
      Some((s[..i], s[i + 1..]))
  }

  lemma PartsExact(s: string, separator: char, a: string, b: string)
    ensures Parts(s, separator) == Some((a, b)) <==> s == a + [separator] + b && separator !in a && separator !in b
  {
    CountZero(s, separator);
    if Parts(s, separator) == Some((a, b)) {
      var i := IndexOf(s, separator);
      assert s == s[..i] + [separator] + s[i + 1..];
      CountZero(a, separator);
      CountZero(b, separator);
      CountSplit(a + [separator], b, separator);
      CountSplit(a, [separator], separator);
    }
    if s == a + [separator] + b && separator !in a && separator !in b {
      CountZero(a, separator);
      CountZero(b, separator);
      CountSplit(a + [separator], b, separator);
      CountSplit(a, [separator], separator);
      SameIndex(s, separator, a, b);
    }
  }

  lemma InPrefix(s: string, i: nat, k: nat)
    ensures k < i <= |s| ==> s[k] in s[..i]
  {
    if k < i <= |s| {
      assert s[..i][k] == s[k];
    }
  }

  lemma FromPrefix(s: string, a: string, i: nat)
    requires a <= s
    ensures i < |a| ==> s[i] in a
  {
    if i < |a| {
      assert s[i] == a[i];
    }
  }

  lemma SameIndex(s: string, separator: char, a: string, b: string)
    requires s == a + [separator] + b && separator !in a
    ensures separator in s && IndexOf(s, separator) == |a| && s[..|a|] == a && s[|a| + 1..] == b
  {
    assert s[|a|] == separator;
    var i := IndexOf(s, separator);
    FromPrefix(s, a, i);
    InPrefix(s, i, |a|);
  }

  function EncodeToken(c: Crypto, key: Bytes, payload: Bytes): Result<string, SignatureError> {
    if payload == [] then Failure(InvalidToken) else
    var token := Encode(payload) + "." + Sign(c, key, payload);
    :- Need(|token| <= MAX_TOKEN_BYTES, InvalidToken);
    Success(token)
  }

  lemma {:induction false} EncodedLength(b: Bytes)
    ensures |Encode(b)| == (4 * |b| + 2) / 3
  {
    if |b| > 2 { EncodedLength(b[3..]); }
  }

  /** A payload is printed as a token if and only if it is not empty and the token is no longer than 8192 characters. */
  lemma TokenPrinted(c: Crypto, key: Bytes, payload: Bytes)
    requires Sound(c)
    ensures EncodeToken(c, key, payload).Success? <==> 0 < |payload| && (4 * |payload| + 2) / 3 + 65 <= 8192
    ensures EncodeToken(c, key, payload).Success? ==>
              EncodeToken(c, key, payload).value == Encode(payload) + "." + Hex(c.mac(key, payload))
  {
    hide Encode;
    EncodedLength(payload);
    HexLength(c.mac(key, payload));
  }

  lemma {:induction false} HexLength(b: Bytes)
    ensures |Hex(b)| == 2 * |b|
  {
    if b != [] { HexLength(b[1..]); }
  }

  function SplitToken(token: string): Result<(string, string), SignatureError> {
    if !(token != "" && P.Utf8Length(token) <= MAX_TOKEN_BYTES) then Failure(InvalidToken) else
    var parts := Parts(token, '.');
    :- Need(parts.Some?, InvalidToken);
    :- Need(parts.value.0 != "" && parts.value.1 != "", InvalidToken);
    Success(parts.value)
  }

  function DecodeAndVerify(c: Crypto, key: Bytes, token: string): Result<Bytes, SignatureError> {
    var parts :- SplitToken(token);
    :- Need(!T.ContainsAny(parts.0, "= \t\r\n"), InvalidToken);
    var payload := Decode(parts.0);
    :- Need(payload.Some?, InvalidToken);
    :- Need(Encode(payload.value) == parts.0, InvalidToken);
    var verified :- Verify(c, key, payload.value, parts.1);
    Success(payload.value)
  }

  lemma TokenParts(c: Crypto, key: Bytes, payload: Bytes, token: string)
    requires Sound(c) && EncodeToken(c, key, payload) == Success(token)
    ensures SplitToken(token) == Success((Encode(payload), Sign(c, key, payload)))
            && !T.ContainsAny(Encode(payload), "= \t\r\n")
  {
    hide Encode, Hex, Count, IndexOf;
    var signature := Sign(c, key, payload);
    assert '.' !in Encode(payload) && '.' !in signature;
    PartsExact(token, '.', Encode(payload), signature);
    AsciiLength(token);
  }

  /** Tokens are canonical: a token is accepted with a payload if and only if it is the token that is printed for it. */
  lemma TokenExact(c: Crypto, key: Bytes, token: string, payload: Bytes)
    requires Sound(c)
    ensures DecodeAndVerify(c, key, token) == Success(payload) <==> EncodeToken(c, key, payload) == Success(token)
  {
    hide Encode, Decode, Verify, Sign, Parts, Sound, P.Utf8Length;
    if EncodeToken(c, key, payload) == Success(token) {
      TokenParts(c, key, payload, token);
      DecodeOfEncode(payload);
      SignatureExact(c, key, payload, Sign(c, key, payload));
    }
    if DecodeAndVerify(c, key, token) == Success(payload) {
      var parts := SplitToken(token).value;
      PartsExact(token, '.', parts.0, parts.1);
      SignatureExact(c, key, payload, parts.1);
      LengthBound(token);
      assert token == Encode(payload) + "." + Sign(c, key, payload);
    }
  }

  // ---------- headers ----------

  /** Occurrences from left to right, without overlap. */
  function Occurrences(s: string, sub: string): nat
    requires sub != ""
    decreases |s|
  {
    if |s| < |sub| then 0
    else if sub <= s then 1 + Occurrences(s[|sub|..], sub)
    else Occurrences(s[1..], sub)
  }

  /** A prefix without the first character of what is sought can be skipped. */
  lemma {:induction false} SkipOver(a: string, b: string, sub: string)
    requires sub != "" && sub[0] !in a
    ensures Occurrences(a + b, sub) == Occurrences(b, sub)
  {
    if a == "" {
      assert a + b == b;
    } else {
      assert (a + b)[1..] == a[1..] + b;
      SkipOver(a[1..], b, sub);
      assert !(sub <= a + b) by {
        assert (a + b)[0] == a[0];
      }
      if |a + b| < |sub| {
        assert |b| < |sub|;
      }
    }
  }

  lemma FoundAt(s: string, sub: string)
    requires sub != ""
    ensures Occurrences(sub + s, sub) == 1 + Occurrences(s, sub)
  {
    assert (sub + s)[|sub|..] == s;
  }

  function ParseComponents(c: Crypto, header: string): Result<(int, string), SignatureError> {
    if !(header != "" && !T.ContainsAny(header, " \t\r\n")) then Failure(InvalidSignature) else
    var parts := Parts(header, ',');
    :- Need(parts.Some?, InvalidSignature);
    var (tPart, vPart) := parts.value;
    :- Need("t=" <= tPart && "v1=" <= vPart, InvalidSignature);
    :- Need(Occurrences(header, "t=") == 1 && Occurrences(header, "v1=") == 1, InvalidSignature);
    var tRaw, vRaw := tPart[2..], vPart[3..];
    :- Need(tRaw != "" && vRaw != "", InvalidSignature);
    :- Need(!(|tRaw| > 1 && tRaw[0] == '0'), InvalidSignature);
    :- Need(tRaw[0] != '-' && !T.ContainsAny(tRaw, "+.eE"), InvalidSignature);
    var ts := T.ParseInt64(tRaw);
    :- Need(ts.Some? && ts.value >= 0, InvalidSignature);
    :- Need(T.CanonicalUnix(ts.value) == Success(tRaw), InvalidSignature);
    :- Need(P.Utf8Length(vRaw) == SIGNATURE_HEX_LENGTH && c.lower(vRaw) == vRaw, InvalidSignature);
    Success((ts.value, vRaw))
  }

  function Components(ts: nat, signature: string): string {
    "t=" + T.Decimal(ts) + ",v1=" + signature
  }

  /** What may stand in the place of the signature: 64 bytes in lower case without separators or the labels of the
      header. */
  ghost predicate SignatureText(c: Crypto, s: string) {
    && P.Utf8Length(s) == SIGNATURE_HEX_LENGTH && c.lower(s) == s
    && !T.ContainsAny(s, " \t\r\n,") && Occurrences(s, "t=") == 0 && Occurrences(s, "v1=") == 0
  }

  lemma LabelsOnce(ts: nat, signature: string)
    ensures Occurrences(Components(ts, signature), "t=") == 1 + Occurrences(signature, "t=")
    ensures Occurrences(Components(ts, signature), "v1=") == 1 + Occurrences(signature, "v1=")
  {
    hide Occurrences, T.Decimal;
    var d := T.Decimal(ts);
    assert Components(ts, signature) == "t=" + ((d + ",v1=") + signature);
    FoundAt((d + ",v1=") + signature, "t=");
    SkipOver(d + ",v1=", signature, "t=");
    assert Components(ts, signature) == ("t=" + d + ",") + ("v1=" + signature);
    SkipOver("t=" + d + ",", "v1=" + signature, "v1=");
    FoundAt(signature, "v1=");
  }

  lemma ParsePrinted(c: Crypto, ts: nat, signature: string)
    requires ts <= T.MAX_INT64 && SignatureText(c, signature)
    ensures ParseComponents(c, Components(ts, signature)) == Success((ts, signature))
  {
    hide Occurrences, T.Decimal, T.Value, Parts, P.Utf8Length;
    var d := T.Decimal(ts);
    var header := Components(ts, signature);
    assert header == ("t=" + d) + [','] + ("v1=" + signature);
    PartsExact(header, ',', "t=" + d, "v1=" + signature);
    LabelsOnce(ts, signature);
    assert ("t=" + d)[2..] == d && ("v1=" + signature)[3..] == signature;
    T.DecimalValue(ts);
    assert signature != "" by { assert P.Utf8Length("") == 0 by { EmptyLength(); } }
    assert T.IsDigit(d[0]) by { assert d[0] in d; }
  }

  lemma EmptyLength()
    ensures P.Utf8Length("") == 0
  {
  }

  lemma ParsedShape(c: Crypto, header: string)
    requires ParseComponents(c, header).Success?
    ensures var (ts, signature) := ParseComponents(c, header).value;
            0 <= ts <= T.MAX_INT64 && header == Components(ts, signature)
  {
    hide Occurrences, T.Decimal, T.Value, Parts, P.Utf8Length;
    var parts := Parts(header, ',').value;
    PartsExact(header, ',', parts.0, parts.1);
    assert parts.0 == "t=" + parts.0[2..] && parts.1 == "v1=" + parts.1[3..];
  }

  /** The grammar of the header is exact: (ts, signature) is returned if and only if the header is
      `t=<ts>,v1=<signature>` with the time in canonical decimal. */
  lemma ComponentsExact(c: Crypto, header: string, ts: int, signature: string)
    ensures ParseComponents(c, header) == Success((ts, signature))
            <==> 0 <= ts <= T.MAX_INT64 && header == Components(ts, signature) && SignatureText(c, signature)
  {
    if 0 <= ts <= T.MAX_INT64 && header == Components(ts, signature) && SignatureText(c, signature) {
      ParsePrinted(c, ts, signature);
    }
    if ParseComponents(c, header) == Success((ts, signature)) {
      ParsedShape(c, header);
      ParsedSignature(c, header, ts, signature);
    }
  }

  lemma ParsedSignature(c: Crypto, header: string, ts: nat, signature: string)
    requires ParseComponents(c, header) == Success((ts, signature)) && header == Components(ts, signature)
    ensures SignatureText(c, signature)
  {
    hide Occurrences, T.Decimal, T.Value, Parts, P.Utf8Length;
    LabelsOnce(ts, signature);
    var parts := Parts(header, ',').value;
    PartsExact(header, ',', parts.0, parts.1);
    assert forall x :: x in signature ==> x in header;
    assert forall x :: x in signature ==> x in parts.1;
  }

  // ---------- callbacks and reconciliation ----------

  function Octets(s: string): Bytes {
    seq(|s|, i requires 0 <= i < |s| => if s[i] as int < 256 then s[i] as int else 0)
  }

  function CallbackMessage(unix: string, body: Bytes): Bytes {
    Octets(unix) + Octets(".") + body
  }

  function ReconcileMessage(unix: string, path: Bytes): Bytes {
    Octets("GET\n") + path + Octets("\n") + Octets(unix)
  }

  /** Octets of a text determine it, as far as it keeps to single bytes. */
  lemma OctetsDetermine(s: string, t: string)
    requires Octets(s) == Octets(t) && forall c :: c in s + t ==> c as int < 256
    ensures s == t
  {
    assert |s| == |Octets(s)| && |t| == |Octets(t)|;
    forall k | 0 <= k < |s| ensures s[k] == t[k] {
      assert s[k] in s + t && t[k] in s + t;
      assert Octets(s)[k] == Octets(t)[k];
    }
  }

  lemma DigitOctets(n: nat)
    ensures forall k :: 0 <= k < |Octets(T.Decimal(n))| ==> '0' as int <= Octets(T.Decimal(n))[k] <= '9' as int
    ensures |Octets(T.Decimal(n))| == |T.Decimal(n)| && forall c :: c in T.Decimal(n) ==> c as int < 256
  {
    hide T.Decimal;
    forall k | 0 <= k < |T.Decimal(n)| ensures T.IsDigit(T.Decimal(n)[k]) {
      assert T.Decimal(n)[k] in T.Decimal(n);
    }
  }

  /** A separator that occurs in neither of two texts splits what follows them in one way only. */
  lemma FirstSeparator(u: Bytes, b: Bytes, sep: int)
    requires sep !in u
    ensures var m := u + [sep] + b;
            m[|u|] == sep && (forall k :: 0 <= k < |u| ==> m[k] != sep) && u == m[..|u|] && b == m[|u| + 1..]
  {
    var m := u + [sep] + b;
    forall k | 0 <= k < |u| ensures m[k] != sep {
      assert m[k] == u[k] && u[k] in u;
    }
  }

  lemma SplitOnce(u: Bytes, b: Bytes, v: Bytes, d: Bytes, sep: int)
    requires sep !in u && sep !in v && u + [sep] + b == v + [sep] + d
    ensures u == v && b == d
  {
    FirstSeparator(u, b, sep);
    FirstSeparator(v, d, sep);
    assert !(|u| < |v|) && !(|v| < |u|);
  }

  /** The same for what precedes them. */
  lemma LastSeparator(b: Bytes, u: Bytes, sep: int)
    requires sep !in u
    ensures var m := b + [sep] + u;
            m[|b|] == sep && (forall k :: |b| < k < |m| ==> m[k] != sep) && b == m[..|b|] && u == m[|b| + 1..]
  {
    var m := b + [sep] + u;
    forall k | |b| < k < |m| ensures m[k] != sep {
      assert m[k] == u[k - |b| - 1] && u[k - |b| - 1] in u;
    }
  }

  lemma SplitLast(b: Bytes, u: Bytes, d: Bytes, v: Bytes, sep: int)
    requires sep !in u && sep !in v && b + [sep] + u == d + [sep] + v
    ensures u == v && b == d
  {
    LastSeparator(b, u, sep);
    LastSeparator(d, v, sep);
    assert !(|b| < |d|) && !(|d| < |b|);
  }

  lemma SeparatorOctets()
    ensures Octets(".") == ['.' as int] && Octets("\n") == ['\n' as int] && |Octets("GET\n")| == 4
  {
  }

  lemma SameTime(ts: nat, ts': nat)
    requires Octets(T.Decimal(ts)) == Octets(T.Decimal(ts'))
    ensures ts == ts'
  {
    hide Octets, T.Decimal;
    DigitOctets(ts);
    DigitOctets(ts');
    OctetsDetermine(T.Decimal(ts), T.Decimal(ts'));
    T.DecimalValue(ts);
    T.DecimalValue(ts');
  }

  /** What is signed for a callback determines its time and its body. */
  lemma CallbackMessageDetermines(ts: nat, body: Bytes, ts': nat, body': Bytes)
    requires CallbackMessage(T.Decimal(ts), body) == CallbackMessage(T.Decimal(ts'), body')
    ensures ts == ts' && body == body'
  {
    hide Octets, T.Decimal;
    DigitOctets(ts);
    DigitOctets(ts');
    SeparatorOctets();
    SplitOnce(Octets(T.Decimal(ts)), body, Octets(T.Decimal(ts')), body', '.' as int);
    SameTime(ts, ts');
  }

  /** What is signed for a reconciliation determines its time and its path. */
  lemma ReconcileMessageDetermines(ts: nat, path: Bytes, ts': nat, path': Bytes)
    requires ReconcileMessage(T.Decimal(ts), path) == ReconcileMessage(T.Decimal(ts'), path')
    ensures ts == ts' && path == path'
  {
    hide Octets, T.Decimal;
    var g := Octets("GET\n");
    DigitOctets(ts);
    DigitOctets(ts');
    SeparatorOctets();
    SplitLast(g + path, Octets(T.Decimal(ts)), g + path', Octets(T.Decimal(ts')), '\n' as int);
    assert path == (g + path)[4..] && path' == (g + path')[4..];
    SameTime(ts, ts');
  }

  function Unix(ts: int): Result<string, SignatureError> {
    match T.CanonicalUnix(ts)
    case Success(text) => Success(text)
    case Failure(_) => Failure(InvalidTime)
  }

  function CallbackHeader(c: Crypto, key: Bytes, ts: int, body: Bytes): Result<string, SignatureError> {
    var unix :- Unix(ts);
    Success("t=" + unix + ",v1=" + Sign(c, key, CallbackMessage(unix, body)))
  }

  function ValidateReplayWindow(ts: int, now: int): Result<(), SignatureError> {
    if ts < 0 then Failure(InvalidTime) else
    var delta := now - ts;
    :- Need((if delta < 0 then -delta else delta) <= REPLAY_WINDOW, OutsideWindow);
    Success(())
  }

  function VerifyCallbackHeader(c: Crypto, key: Bytes, header: string, body: Bytes, now: int)
    : Result<(), SignatureError>
  {
    var (ts, signature) :- ParseComponents(c, header);
    var inWindow :- ValidateReplayWindow(ts, now);
    var unix :- Unix(ts);
    Verify(c, key, CallbackMessage(unix, body), signature)
  }

  /** Lowercase hexadecimal of the right length fits the header. */
  lemma {:induction false} NoLabelInHex(s: string, tag: string)
    requires LowerHex(s) && tag != "" && !IsLowerHex(tag[0])
    ensures Occurrences(s, tag) == 0
  {
    if |s| >= |tag| {
      assert s[0] in s;
      NoLabelInHex(s[1..], tag);
    }
  }

  lemma SignedText(c: Crypto, key: Bytes, message: Bytes)
    requires Sound(c)
    ensures SignatureText(c, Sign(c, key, message))
  {
    var s := Sign(c, key, message);
    AsciiLength(s);
    NoLabelInHex(s, "t=");
    NoLabelInHex(s, "v1=");
  }

  /** A callback is accepted if and only if its header is the one that is printed for its body at a time within the
      window. */
  lemma CallbackExact(c: Crypto, key: Bytes, header: string, body: Bytes, now: int)
    requires Sound(c)
    ensures VerifyCallbackHeader(c, key, header, body, now).Success?
            <==> exists ts: int ::
              0 <= ts <= T.MAX_INT64 && now - 300 <= ts <= now + 300
              && CallbackHeader(c, key, ts, body) == Success(header)
  {
    hide ParseComponents, Verify, Sign, SignatureText, T.Decimal, CallbackMessage, Sound;
    if VerifyCallbackHeader(c, key, header, body, now).Success? {
      var (ts, signature) := ParseComponents(c, header).value;
      ComponentsExact(c, header, ts, signature);
      SignatureExact(c, key, CallbackMessage(T.Decimal(ts), body), signature);
      assert CallbackHeader(c, key, ts, body) == Success(header);
    }
    if ts: int :|
         0 <= ts <= T.MAX_INT64 && now - REPLAY_WINDOW <= ts <= now + REPLAY_WINDOW
         && CallbackHeader(c, key, ts, body) == Success(header) {
      var signature := Sign(c, key, CallbackMessage(T.Decimal(ts), body));
      SignedText(c, key, CallbackMessage(T.Decimal(ts), body));
      ComponentsExact(c, header, ts, signature);
      SignatureExact(c, key, CallbackMessage(T.Decimal(ts), body), signature);
    }
  }

  function ReconcileHeader(c: Crypto, key: Bytes, ts: int, path: Bytes): Result<string, SignatureError> {
    var unix :- Unix(ts);
    Success(RECONCILE_SCHEME + " t=" + unix + ",v1=" + Sign(c, key, ReconcileMessage(unix, path)))
  }

  /** The headers, to the letter. */
  lemma HeaderShapes(c: Crypto, key: Bytes, ts: nat, body: Bytes)
    requires ts <= T.MAX_INT64
    ensures CallbackHeader(c, key, ts, body)
            == Success("t=" + T.Decimal(ts) + ",v1=" + Hex(c.mac(key, CallbackMessage(T.Decimal(ts), body))))
    ensures ReconcileHeader(c, key, ts, body)
            == Success("Subscription-Bridge-HMAC t=" + T.Decimal(ts) + ",v1="
                       + Hex(c.mac(key, ReconcileMessage(T.Decimal(ts), body))))
  {
    hide T.Decimal, CallbackMessage, ReconcileMessage;
    assert RECONCILE_SCHEME + " t=" == "Subscription-Bridge-HMAC t=";
  }

  /** The text around the first separator. */
  function Cut(s: string, separator: char): Option<(string, string)> {
    if separator !in s then None else
      var i := IndexOf(s, separator);
      Some((s[..i], s[i + 1..]))
  }

  predicate Trimmed(s: string) {
    s != "" ==> !P.IsSpace(s[0]) && !P.IsSpace(s[|s| - 1])
  }

  function VerifyReconcileHeader(c: Crypto, key: Bytes, authorization: string, path: Bytes, now: int)
    : Result<(), SignatureError>
  {
    var cut := Cut(authorization, ' ');
    :- Need(cut.Some? && cut.value.0 == RECONCILE_SCHEME && cut.value.1 != "", InvalidSignature);
    var rest := cut.value.1;
    :- Need(Trimmed(rest) && !T.ContainsAny(rest, " \t"), InvalidSignature);
    var (ts, signature) :- ParseComponents(c, rest);
    var inWindow :- ValidateReplayWindow(ts, now);
    var unix :- Unix(ts);
    Verify(c, key, ReconcileMessage(unix, path), signature)
  }

  lemma CutExact(s: string, separator: char, a: string, b: string)
    ensures Cut(s, separator) == Some((a, b)) <==> s == a + [separator] + b && separator !in a
  {
    if Cut(s, separator) == Some((a, b)) {
      var i := IndexOf(s, separator);
      assert s == s[..i] + [separator] + s[i + 1..];
    }
    if s == a + [separator] + b && separator !in a {
      SameIndex(s, separator, a, b);
    }
  }

  /** The printed components are trimmed and free of blanks. */
  lemma PrintedTrimmed(ts: nat, signature: string)
    requires LowerHex(signature) && signature != ""
    ensures var s := Components(ts, signature); s != "" && Trimmed(s) && !T.ContainsAny(s, " \t")
  {
    hide T.Decimal;
    var s := Components(ts, signature);
    assert s[|s| - 1] == signature[|signature| - 1];
    assert signature[|signature| - 1] in signature;
    assert s[0] == 't';
  }

  lemma ReconcileParts(c: Crypto, key: Bytes, ts: nat, path: Bytes)
    ensures var signature := Sign(c, key, ReconcileMessage(T.Decimal(ts), path));
            && ReconcileHeader(c, key, ts, path) == Success(RECONCILE_SCHEME + [' '] + Components(ts, signature))
            && ' ' !in RECONCILE_SCHEME
  {
    hide Sign, ReconcileMessage, T.Decimal;
    var signature := Sign(c, key, ReconcileMessage(T.Decimal(ts), path));
    assert RECONCILE_SCHEME + " t=" + T.Decimal(ts) + ",v1=" + signature == RECONCILE_SCHEME + [' '] + Components(ts,
        signature);
  }

  /** A reconciliation request is accepted if and only if its header is the one that is printed for its path at a time
      within the window. */
  lemma ReconcileExact(c: Crypto, key: Bytes, authorization: string, path: Bytes, now: int)
    requires Sound(c)
    ensures VerifyReconcileHeader(c, key, authorization, path, now).Success?
            <==> exists ts: int :: 0 <= ts <= T.MAX_INT64 && now - 300 <= ts <= now + 300
                                   && ReconcileHeader(c, key, ts, path) == Success(authorization)
  {
    hide ParseComponents, Verify, Sign, SignatureText, T.Decimal, ReconcileMessage, Sound, Cut, Trimmed, Components,
         ReconcileHeader;
    if VerifyReconcileHeader(c, key, authorization, path, now).Success? {
      var rest := Cut(authorization, ' ').value.1;
      var (ts, signature) := ParseComponents(c, rest).value;
      CutExact(authorization, ' ', RECONCILE_SCHEME, rest);
      ComponentsExact(c, rest, ts, signature);
      SignatureExact(c, key, ReconcileMessage(T.Decimal(ts), path), signature);
      ReconcileParts(c, key, ts, path);
      assert ReconcileHeader(c, key, ts, path) == Success(authorization);
    }
    if ts: int :|
         0 <= ts <= T.MAX_INT64 && now - REPLAY_WINDOW <= ts <= now + REPLAY_WINDOW
         && ReconcileHeader(c, key, ts, path) == Success(authorization) {
      AcceptPrinted(c, key, ts, path, now);
    }
  }

  lemma AcceptPrinted(c: Crypto, key: Bytes, ts: nat, path: Bytes, now: int)
    requires Sound(c) && ts <= T.MAX_INT64 && now - REPLAY_WINDOW <= ts <= now + REPLAY_WINDOW
    ensures VerifyReconcileHeader(c, key, ReconcileHeader(c, key, ts, path).value, path, now).Success?
  {
    var message := ReconcileMessage(T.Decimal(ts), path);
    var signature := Sign(c, key, message);
    assert LowerHex(signature) && signature != "";
    hide ParseComponents, Verify, Sign, SignatureText, T.Decimal, ReconcileMessage, Sound, Cut, Trimmed, Components,
         ReconcileHeader, LowerHex;
    ReconcileParts(c, key, ts, path);
    CutExact(RECONCILE_SCHEME + [' '] + Components(ts, signature), ' ', RECONCILE_SCHEME, Components(ts, signature));
    PrintedTrimmed(ts, signature);
    SignedText(c, key, message);
    ComponentsExact(c, Components(ts, signature), ts, signature);
    SignatureExact(c, key, message, signature);
  }
}

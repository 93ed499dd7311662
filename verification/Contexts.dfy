/** The byte strings that bind identities, epochs and counters into keys, nonces and associated data. */
module Contexts {
  import opened Types

  type byte = x: int | 0 <= x < 256

  const SESSION_INFO_LABEL: string := "e2e-chat-rs/x25519-xchacha20poly1305/v1"
  const NONCE_LABEL: string := "e2e-chat-rs/xchacha20poly1305-nonce/v1"
  const PROTOCOL_VERSION: nat := 1

  predicate IsAscii(s: string) {
    forall i | 0 <= i < |s| :: s[i] as int < 128
  }

  /** The UTF-8 bytes of an ASCII string. */
  function AsciiBytes(s: string): (r: seq<byte>)
    requires IsAscii(s)
    ensures |r| == |s|
  {
    seq(|s|, i requires 0 <= i < |s| => s[i] as int)
  }

  /** Fixed-width big-endian encoding of `n` modulo 256^width. */
  function BigEndian(n: nat, width: nat): (r: seq<byte>)
    ensures |r| == width
  {
    if width == 0 then [] else BigEndian(n / 256, width - 1) + [n % 256]
  }

  function Pow256(width: nat): (r: nat)
    ensures r > 0
  {
    if width == 0 then 1 else 256 * Pow256(width - 1)
  }

  function Decimal(n: nat): (r: string)
    ensures |r| > 0
    ensures forall i | 0 <= i < |r| :: '0' <= r[i] <= '9'
  {
    if n < 10 then ['0' + n as char] else Decimal(n / 10) + ['0' + (n % 10) as char]
  }

  /** Byte-wise lexicographic order, as `str` is ordered. */
  predicate LexLeq(a: string, b: string) {
    a == [] || (b != [] && (a[0] < b[0] || (a[0] == b[0] && LexLeq(a[1..], b[1..]))))
  }

  function FirstId(a: ClientId, b: ClientId): ClientId { if LexLeq(a, b) then a else b }

  function SecondId(a: ClientId, b: ClientId): ClientId { if LexLeq(a, b) then b else a }

  function SessionInfo(localId: ClientId, peerId: ClientId): (info: seq<byte>)
  {
    LabelsAreAscii();
    IdIsAscii(FirstId(localId, peerId));
    IdIsAscii(SecondId(localId, peerId));
    AsciiBytes(SESSION_INFO_LABEL) + [0] + AsciiBytes(FirstId(localId, peerId))
    + [0] + AsciiBytes(SecondId(localId, peerId))
  }

  function KeyInfo(sessionInfo: seq<byte>, epoch: nat): seq<byte> {
    sessionInfo + BigEndian(epoch, 4)
  }

  function NoncePrefixInput(localId: ClientId, peerId: ClientId): (input: seq<byte>)
  {
    LabelsAreAscii();
    IdIsAscii(localId);
    IdIsAscii(peerId);
    AsciiBytes(NONCE_LABEL) + [0] + AsciiBytes(localId) + [0] + AsciiBytes(peerId)
  }

  function NonceLayout(prefix: seq<byte>, counter: nat): seq<byte> {
    prefix + BigEndian(counter, 8)
  }

  /** The JSON object bound as associated data; no field needs escaping. */
  function AssociatedDataText(sender: ClientId, recipient: ClientId, messageId: MessageId, epoch: nat): string {
    "{\"version\":" + Decimal(PROTOCOL_VERSION) + ",\"sender\":\"" + sender
    + "\",\"recipient\":\"" + recipient
    + "\",\"message_id\":\"" + messageId
    + "\",\"epoch\":" + Decimal(epoch) + "}"
  }

  // ---------- supporting facts ----------

  lemma LabelsAreAscii()
    ensures IsAscii(SESSION_INFO_LABEL) && IsAscii(NONCE_LABEL)
  {
  }

  lemma IdIsAscii(id: ClientId)
    ensures IsAscii(id)
    ensures forall i | 0 <= i < |id| :: 0 < id[i] as int && id[i] != '\"'
  {
    forall i | 0 <= i < |id|
      ensures 0 < id[i] as int < 128 && id[i] != '\"'
    {
      assert IsAllowedClientIdChar(id[i]);
    }
  }

  lemma AsciiBytesInjective(a: string, b: string)
    requires IsAscii(a) && IsAscii(b)
    requires AsciiBytes(a) == AsciiBytes(b)
    ensures a == b
  {
    assert |a| == |b|;
    forall i | 0 <= i < |a|
      ensures a[i] == b[i]
    {
      assert AsciiBytes(a)[i] == AsciiBytes(b)[i];
    }
  }

  /** A separator that cannot occur in the left parts makes the split point unique. */
  lemma SplitAtSeparator<T>(a: seq<T>, x: seq<T>, b: seq<T>, y: seq<T>, sep: T)
    requires sep !in a && sep !in b
    requires a + [sep] + x == b + [sep] + y
    ensures a == b && x == y
  {
    var s := a + [sep] + x;
    assert s[|a|] == sep && s[|b|] == sep;
    assert forall i | 0 <= i < |a| :: s[i] == a[i] && a[i] != sep;
    assert forall i | 0 <= i < |b| :: s[i] == b[i] && b[i] != sep;
    assert a == s[..|a|] && b == s[..|b|];
    assert x == s[|a| + 1..] && y == s[|b| + 1..];
  }

  lemma SameLengthTails<T>(a: seq<T>, x: seq<T>, b: seq<T>, y: seq<T>)
    requires |x| == |y|
    requires a + x == b + y
    ensures a == b && x == y
  {
    assert |a| == |b|;
    assert a == (a + x)[..|a|] && b == (b + y)[..|b|];
    assert x == (a + x)[|a|..] && y == (b + y)[|b|..];
  }

  lemma SameLengthHeads<T>(a: seq<T>, x: seq<T>, b: seq<T>, y: seq<T>)
    requires |a| == |b|
    requires a + x == b + y
    ensures a == b && x == y
  {
    SameLengthTails(a, x, b, y);
  }

  lemma {:induction false} BigEndianInjective(m: nat, n: nat, width: nat)
    requires m < Pow256(width) && n < Pow256(width)
    requires BigEndian(m, width) == BigEndian(n, width)
    ensures m == n
  {
    if width > 0 {
      SameLengthTails(BigEndian(m / 256, width - 1), [m % 256], BigEndian(n / 256, width - 1), [n % 256]);
      assert [m % 256][0] == [n % 256][0];
      BigEndianInjective(m / 256, n / 256, width - 1);
    }
  }

  lemma {:induction false} DecimalInjective(m: nat, n: nat)
    requires Decimal(m) == Decimal(n)
    ensures m == n
  {
    if m < 10 && n < 10 {
      assert Decimal(m)[0] == Decimal(n)[0];
    } else if m >= 10 && n >= 10 {
      var dm, dn := ['0' + (m % 10) as char], ['0' + (n % 10) as char];
      SameLengthTails(Decimal(m / 10), dm, Decimal(n / 10), dn);
      assert dm[0] == dn[0];
      DecimalInjective(m / 10, n / 10);
    }
  }

  lemma {:induction false} LexTotal(a: string, b: string)
    ensures LexLeq(a, b) || LexLeq(b, a)
    ensures LexLeq(a, b) && LexLeq(b, a) ==> a == b
  {
    if a != [] && b != [] && a[0] == b[0] {
      LexTotal(a[1..], b[1..]);
      assert a == [a[0]] + a[1..] && b == [b[0]] + b[1..];
    }
  }

  lemma NoZero(id: ClientId)
    requires IsAscii(id)
    ensures 0 !in AsciiBytes(id)
  {
    IdIsAscii(id);
    assert forall i | 0 <= i < |id| :: AsciiBytes(id)[i] == id[i] as int;
  }

  /** `tag ++ 0 ++ a ++ 0 ++ b` determines `a` and `b`. */
  lemma LabelledPairInjective(tag: seq<byte>, a: ClientId, b: ClientId, c: ClientId, d: ClientId)
    requires IsAscii(a) && IsAscii(b) && IsAscii(c) && IsAscii(d)
    requires tag + [0] + AsciiBytes(a) + [0] + AsciiBytes(b) == tag + [0] + AsciiBytes(c) + [0] + AsciiBytes(d)
    ensures a == c && b == d
  {
    var left := AsciiBytes(a) + [0] + AsciiBytes(b);
    var right := AsciiBytes(c) + [0] + AsciiBytes(d);
    var head := tag + [0];
    assert tag + [0] + AsciiBytes(a) + [0] + AsciiBytes(b) == head + left;
    assert tag + [0] + AsciiBytes(c) + [0] + AsciiBytes(d) == head + right;
    SameLengthHeads(head, left, head, right);
    NoZero(a);
    NoZero(c);
    SplitAtSeparator(AsciiBytes(a), AsciiBytes(b), AsciiBytes(c), AsciiBytes(d), 0);
    AsciiBytesInjective(a, c);
    AsciiBytesInjective(b, d);
  }

  // ---------- the layouts, position by position ----------

  /** The number that bytes denote, most significant first. */
  function NumberOf(bytes: seq<byte>): nat {
    if bytes == [] then 0 else bytes[0] * Pow256(|bytes| - 1) + NumberOf(bytes[1..])
  }

  lemma {:induction false} NumberOfLast(bytes: seq<byte>, last: byte)
    ensures NumberOf(bytes + [last]) == 256 * NumberOf(bytes) + last
  {
    if bytes == [] {
      assert [] + [last] == [last] && [last][1..] == [];
    } else {
      var all, rest := bytes + [last], bytes[1..];
      assert all[1..] == rest + [last];
      NumberOfLast(rest, last);
      assert Pow256(|bytes|) == 256 * Pow256(|bytes| - 1);
    }
  }

  /** The encoding is big-endian: read from the front, it gives the number back. */
  lemma {:induction false} BigEndianRoundTrip(n: nat, width: nat)
    requires n < Pow256(width)
    ensures NumberOf(BigEndian(n, width)) == n
    ensures width > 0 ==> BigEndian(n, width)[width - 1] == n % 256
  {
    if width > 0 {
      BigEndianRoundTrip(n / 256, width - 1);
      NumberOfLast(BigEndian(n / 256, width - 1), n % 256);
    }
  }

  /** A nonce is the sixteen prefix bytes and then the counter, most significant byte first. */
  lemma NonceLayoutPositions(prefix: seq<byte>, counter: nat)
    requires |prefix| == 16 && counter < Pow256(8)
    ensures var nonce := NonceLayout(prefix, counter);
            && |nonce| == 24 && nonce[..16] == prefix
            && NumberOf(nonce[16..]) == counter && nonce[23] == counter % 256
  {
    BigEndianRoundTrip(counter, 8);
    assert NonceLayout(prefix, counter)[16..] == BigEndian(counter, 8);
  }

  /** The key-derivation info is the session info and then the epoch in four bytes, most significant first. */
  lemma KeyInfoPositions(info: seq<byte>, epoch: nat)
    requires epoch < Pow256(4)
    ensures var all := KeyInfo(info, epoch);
            && |all| == |info| + 4 && all[..|info|] == info
            && NumberOf(all[|info|..]) == epoch && all[|info| + 3] == epoch % 256
  {
    BigEndianRoundTrip(epoch, 4);
    assert KeyInfo(info, epoch)[|info|..] == BigEndian(epoch, 4);
  }

  /** `a` comes before `b` as a dictionary has it: it is a proper prefix, or smaller where they first differ. */
  ghost predicate Precedes(a: string, b: string) {
    a < b || exists k | 0 <= k < |a| && k < |b| :: a[..k] == b[..k] && a[k] < b[k]
  }

  lemma {:induction false} LexLeqIsDictionaryOrder(a: string, b: string)
    ensures LexLeq(a, b) && a != b ==> Precedes(a, b)
  {
    if LexLeq(a, b) && a != b && a != [] {
      if a[0] < b[0] {
        assert a[..0] == b[..0];
      } else {
        LexLeqIsDictionaryOrder(a[1..], b[1..]);
        assert a == [a[0]] + a[1..] && b == [b[0]] + b[1..];
        if !(a < b) {
          var k :| 0 <= k < |a[1..]| && k < |b[1..]| && a[1..][..k] == b[1..][..k] && a[1..][k] < b[1..][k];
          assert a[..k + 1] == [a[0]] + a[1..][..k] && b[..k + 1] == [b[0]] + b[1..][..k];
          assert a[k + 1] < b[k + 1];
        }
      }
    }
  }

  /** `bytes` is the label, a zero, the first id, a zero and the second id, character by character. */
  predicate LaidOut(bytes: seq<byte>, name: string, first: ClientId, second: ClientId) {
    var p, q := |name| + 1, |name| + |first| + 2;
    && |bytes| == q + |second| && bytes[|name|] == 0 && bytes[q - 1] == 0
    && (forall i | 0 <= i < |name| :: bytes[i] == name[i] as int)
    && (forall i | 0 <= i < |first| :: bytes[p + i] == first[i] as int)
    && (forall i | 0 <= i < |second| :: bytes[q + i] == second[i] as int)
  }

  lemma PairLaidOut(name: string, first: ClientId, second: ClientId)
    requires IsAscii(name) && IsAscii(first) && IsAscii(second)
    ensures LaidOut(AsciiBytes(name) + [0] + AsciiBytes(first) + [0] + AsciiBytes(second), name, first, second)
  {
  }

  /** The session info names the protocol and then both ids, the one that comes first in dictionary order first. */
  lemma SessionInfoPositions(a: ClientId, b: ClientId)
    ensures var (first, second) := (FirstId(a, b), SecondId(a, b));
            && ((first == a && second == b) || (first == b && second == a))
            && (first != second ==> Precedes(first, second))
            && LaidOut(SessionInfo(a, b), "e2e-chat-rs/x25519-xchacha20poly1305/v1", first, second)
  {
    LexTotal(a, b);
    LexLeqIsDictionaryOrder(FirstId(a, b), SecondId(a, b));
    LabelsAreAscii();
    IdIsAscii(a);
    IdIsAscii(b);
    PairLaidOut(SESSION_INFO_LABEL, FirstId(a, b), SecondId(a, b));
  }

  /** The input of the nonce prefix names the protocol, then the sender, then the recipient. */
  lemma NoncePrefixPositions(localId: ClientId, peerId: ClientId)
    ensures LaidOut(NoncePrefixInput(localId, peerId), "e2e-chat-rs/xchacha20poly1305-nonce/v1", localId, peerId)
  {
    LabelsAreAscii();
    IdIsAscii(localId);
    IdIsAscii(peerId);
    PairLaidOut(NONCE_LABEL, localId, peerId);
  }

  /** The number that decimal digits denote. */
  function DecimalValue(s: string): nat
    requires forall i | 0 <= i < |s| :: '0' <= s[i] <= '9'
  {
    if s == [] then 0 else 10 * DecimalValue(s[..|s| - 1]) + (s[|s| - 1] as int - '0' as int)
  }

  lemma {:induction false} DecimalRoundTrip(n: nat)
    ensures DecimalValue(Decimal(n)) == n
    ensures n > 0 ==> Decimal(n)[0] != '0'
  {
    if n < 10 {
      assert Decimal(n)[..0] == [];
    } else {
      DecimalRoundTrip(n / 10);
      assert Decimal(n)[..|Decimal(n)| - 1] == Decimal(n / 10);
    }
  }

  /** `digits` writes `n` in decimal. */
  predicate Writes(digits: string, n: nat) {
    (forall i | 0 <= i < |digits| :: '0' <= digits[i] <= '9') && DecimalValue(digits) == n
  }

  /** The JSON object with version, sender, recipient, message id and epoch, in this order. */
  function JsonObject(sender: string, recipient: string, messageId: string, digits: string): string {
    "{\"version\":1,\"sender\":\"" + sender + "\",\"recipient\":\"" + recipient
    + "\",\"message_id\":\"" + messageId + "\",\"epoch\":" + digits + "}"
  }

  lemma VersionPrefix()
    ensures "{\"version\":" + Decimal(PROTOCOL_VERSION) + ",\"sender\":\"" == "{\"version\":1,\"sender\":\""
  {
    assert Decimal(PROTOCOL_VERSION) == "1";
  }

  /** The associated data is that object, with the epoch in decimal. */
  lemma AssociatedDataLayout(sender: ClientId, recipient: ClientId, messageId: MessageId, epoch: nat)
    ensures Writes(Decimal(epoch), epoch)
    ensures AssociatedDataText(sender, recipient, messageId, epoch)
         == JsonObject(sender, recipient, messageId, Decimal(epoch))
  {
    DecimalRoundTrip(epoch);
    VersionPrefix();
  }

  // ---------- the context theorems ----------

  /** Both ends derive the same session info, and only for the same two ids. */
  lemma SessionInfoIdentifiesPair(a: ClientId, b: ClientId, c: ClientId, d: ClientId)
    ensures SessionInfo(a, b) == SessionInfo(c, d) <==> (a == c && b == d) || (a == d && b == c)
  {
    LexTotal(a, b);
    LexTotal(c, d);
    if SessionInfo(a, b) == SessionInfo(c, d) {
      LabelsAreAscii();
      var a', b', c', d' := FirstId(a, b), SecondId(a, b), FirstId(c, d), SecondId(c, d);
      IdIsAscii(a');
      IdIsAscii(b');
      IdIsAscii(c');
      IdIsAscii(d');
      LabelledPairInjective(AsciiBytes(SESSION_INFO_LABEL), a', b', c', d');
    }
  }

  /** The HKDF info is symmetric in the ids and injective in (unordered pair, epoch). */
  lemma KeyInfoIdentifiesPairAndEpoch(a: ClientId, b: ClientId, e: nat, c: ClientId, d: ClientId, f: nat)
    requires e < Pow256(4) && f < Pow256(4)
    ensures KeyInfo(SessionInfo(a, b), e) == KeyInfo(SessionInfo(c, d), f)
       <==> e == f && ((a == c && b == d) || (a == d && b == c))
  {
    SessionInfoIdentifiesPair(a, b, c, d);
    if KeyInfo(SessionInfo(a, b), e) == KeyInfo(SessionInfo(c, d), f) {
      SameLengthTails(SessionInfo(a, b), BigEndian(e, 4), SessionInfo(c, d), BigEndian(f, 4));
      BigEndianInjective(e, f, 4);
    }
  }

  /** The nonce-prefix input determines the ordered pair, so the two directions hash different inputs. */
  lemma NoncePrefixInputIdentifiesDirection(a: ClientId, b: ClientId, c: ClientId, d: ClientId)
    ensures NoncePrefixInput(a, b) == NoncePrefixInput(c, d) <==> a == c && b == d
  {
    if NoncePrefixInput(a, b) == NoncePrefixInput(c, d) {
      LabelsAreAscii();
      IdIsAscii(a);
      IdIsAscii(b);
      IdIsAscii(c);
      IdIsAscii(d);
      LabelledPairInjective(AsciiBytes(NONCE_LABEL), a, b, c, d);
    }
  }

  /** Sixteen prefix bytes and a 64-bit counter make a 24-byte nonce that determines both. */
  lemma NonceLayoutInjective(p: seq<byte>, m: nat, q: seq<byte>, n: nat)
    requires |p| == 16 && |q| == 16
    requires m < Pow256(8) && n < Pow256(8)
    ensures |NonceLayout(p, m)| == 24
    ensures NonceLayout(p, m) == NonceLayout(q, n) <==> p == q && m == n
  {
    if NonceLayout(p, m) == NonceLayout(q, n) {
      SameLengthHeads(p, BigEndian(m, 8), q, BigEndian(n, 8));
      BigEndianInjective(m, n, 8);
    }
  }

  /** Associated data determines sender, recipient, message id and epoch. */
  lemma AssociatedDataInjective(s1: ClientId, r1: ClientId, m1: MessageId, e1: nat,
                                s2: ClientId, r2: ClientId, m2: MessageId, e2: nat)
    ensures AssociatedDataText(s1, r1, m1, e1) == AssociatedDataText(s2, r2, m2, e2)
       <==> s1 == s2 && r1 == r2 && m1 == m2 && e1 == e2
  {
    if AssociatedDataText(s1, r1, m1, e1) == AssociatedDataText(s2, r2, m2, e2) {
      AssociatedDataFields(s1, r1, m1, Decimal(e1), s2, r2, m2, Decimal(e2));
      DecimalInjective(e1, e2);
    }
  }

  lemma AssociatedDataFields(s1: ClientId, r1: ClientId, m1: MessageId, e1: string,
                             s2: ClientId, r2: ClientId, m2: MessageId, e2: string)
    requires "{\"version\":" + Decimal(PROTOCOL_VERSION) + ",\"sender\":\"" + s1 + "\",\"recipient\":\"" + r1
             + "\",\"message_id\":\"" + m1 + "\",\"epoch\":" + e1 + "}"
          == "{\"version\":" + Decimal(PROTOCOL_VERSION) + ",\"sender\":\"" + s2 + "\",\"recipient\":\"" + r2
             + "\",\"message_id\":\"" + m2 + "\",\"epoch\":" + e2 + "}"
    ensures s1 == s2 && r1 == r2 && m1 == m2 && e1 == e2
  {
    var head := "{\"version\":" + Decimal(PROTOCOL_VERSION) + ",\"sender\":\"";
    var k1, k2, k3 := ",\"recipient\":\"", ",\"message_id\":\"", ",\"epoch\":";
    assert "\",\"recipient\":\"" == ['\"'] + k1;
    assert "\",\"message_id\":\"" == ['\"'] + k2;
    assert "\",\"epoch\":" == ['\"'] + k3;
    AfterHead(head, k1, k2, k3, s1, r1, m1, e1);
    AfterHead(head, k1, k2, k3, s2, r2, m2, e2);
    var t1, t2 := Fields(k1, k2, k3, s1, r1, m1, e1), Fields(k1, k2, k3, s2, r2, m2, e2);
    SameLengthHeads(head, t1, head, t2);
    FieldsInjective(k1, k2, k3, s1, r1, m1, e1, s2, r2, m2, e2);
  }

  /** The part of the JSON text after the first opening quote, grouped to the right. */
  function Fields(k1: string, k2: string, k3: string, s: string, r: string, m: string, e: string): string {
    s + ['\"'] + (k1 + (r + ['\"'] + (k2 + (m + ['\"'] + (k3 + (e + "}"))))))
  }

  lemma AfterHead(head: string, k1: string, k2: string, k3: string, s: string, r: string, m: string, e: string)
    ensures head + s + (['\"'] + k1) + r + (['\"'] + k2) + m + (['\"'] + k3) + e + "}"
         == head + Fields(k1, k2, k3, s, r, m, e)
  {
  }

  lemma FieldsInjective(k1: string, k2: string, k3: string,
                        s1: ClientId, r1: ClientId, m1: MessageId, e1: string,
                        s2: ClientId, r2: ClientId, m2: MessageId, e2: string)
    requires Fields(k1, k2, k3, s1, r1, m1, e1) == Fields(k1, k2, k3, s2, r2, m2, e2)
    ensures s1 == s2 && r1 == r2 && m1 == m2 && e1 == e2
  {
    IdIsAscii(s1);
    IdIsAscii(s2);
    IdIsAscii(r1);
    IdIsAscii(r2);
    var d1, d2 := k3 + (e1 + "}"), k3 + (e2 + "}");
    var c1, c2 := k2 + (m1 + ['\"'] + d1), k2 + (m2 + ['\"'] + d2);
    var b1, b2 := k1 + (r1 + ['\"'] + c1), k1 + (r2 + ['\"'] + c2);
    SplitAtSeparator(s1, b1, s2, b2, '\"');
    SameLengthHeads(k1, r1 + ['\"'] + c1, k1, r2 + ['\"'] + c2);
    SplitAtSeparator(r1, c1, r2, c2, '\"');
    SameLengthHeads(k2, m1 + ['\"'] + d1, k2, m2 + ['\"'] + d2);
    SplitAtSeparator(m1, d1, m2, d2, '\"');
    SameLengthHeads(k3, e1 + "}", k3, e2 + "}");
    SameLengthTails(e1, "}", e2, "}");
  }
}

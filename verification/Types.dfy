/** Shared value types: results, client identities and message identities. */
module Types {

  datatype Option<+T> = None | Some(value: T)

  datatype Result<+T, +E> = Ok(value: T) | Err(error: E)

  datatype TypeError = EmptyClientId | ClientIdTooLong | ClientIdInvalidCharacter

  const CLIENT_ID_MAX_LEN: nat := 64

  predicate IsAllowedClientIdChar(c: char) {
    'a' <= c <= 'z' || 'A' <= c <= 'Z' || '0' <= c <= '9' || c in {'-', '_', '.'}
  }

  /** The 65 characters of an id, by code point: the digits, the letters, and minus, full stop and underscore. */
  lemma AllowedByCodePoint(c: char)
    ensures var n := c as int;
            IsAllowedClientIdChar(c)
            <==> 48 <= n <= 57 || 65 <= n <= 90 || 97 <= n <= 122 || n == 45 || n == 46 || n == 95
  {
    assert c == '-' <==> c as int == 45;
    assert c == '.' <==> c as int == 46;
    assert c == '_' <==> c as int == 95;
  }

  predicate AllAllowed(s: string) {
    forall i | 0 <= i < |s| :: IsAllowedClientIdChar(s[i])
  }

  /** What every `ClientId` in the program satisfies: it can only be built by parsing. */
  predicate IsClientId(s: string) {
    0 < |s| <= CLIENT_ID_MAX_LEN && AllAllowed(s)
  }

  type ClientId = s: string | IsClientId(s) witness "a"

  /** Rejects rather than normalises: an accepted id is the input itself, character for character. */
  function ParseClientId(value: string): (r: Result<ClientId, TypeError>)
    ensures r.Ok? <==> IsClientId(value)
    ensures r.Ok? ==> r.value == value
    ensures r == Err(EmptyClientId) <==> value == ""
    ensures r == Err(ClientIdTooLong) <==> |value| > 64
    ensures r == Err(ClientIdInvalidCharacter) <==> 0 < |value| <= 64 && !AllAllowed(value)
  {
    if value == "" then Err(EmptyClientId)
    else if |value| > CLIENT_ID_MAX_LEN then Err(ClientIdTooLong)
    else if !AllAllowed(value) then Err(ClientIdInvalidCharacter)
    else Ok(value)
  }

  predicate IsUuidChar(c: char) {
    '0' <= c <= '9' || 'a' <= c <= 'f' || c == '-'
  }

  predicate IsUuidText(s: string) {
    |s| == 36 && forall i | 0 <= i < |s| :: IsUuidChar(s[i])
  }

  /** A message id in its canonical hyphenated text form. */
  type MessageId = s: string | IsUuidText(s) witness "00000000-0000-0000-0000-000000000000"
}

/**
 * Authentication of inbound gateway callbacks (`verify_paycom_auth` in
 * paycom_handlers.py). The header carries `Basic <token>`; the token decodes
 * to `login:key`, and the request is accepted when the field after the first
 * colon equals the merchant key. Base64 and UTF-8 decoding are not modelled:
 * they arrive as a function that yields None when either step fails.
 */
module Auth {
  import opened Wrappers

  const BasicPrefix: string := "Basic "

  /** Joins fields with a separator: the inverse of Split. */
  function Join(parts: seq<string>, sep: char): string
    decreases |parts|
  {
    if |parts| == 0 then ""
    else if |parts| == 1 then parts[0]
    else parts[0] + [sep] + Join(parts[1..], sep)
  }

  /**
   * Python's `str.split(sep)`: the fields between occurrences of `sep`,
   * empty fields included; there is always at least one field.
   */
  function Split(s: string, sep: char): (parts: seq<string>)
    ensures |parts| >= 1
    ensures forall i :: 0 <= i < |parts| ==> sep !in parts[i]
    ensures |parts| == 1 <==> sep !in s
    ensures Join(parts, sep) == s
    decreases |s|
  {
    if |s| == 0 then [""]
    else
      var rest := Split(s[1..], sep);
      if s[0] == sep then [""] + rest
      else [[s[0]] + rest[0]] + rest[1..]
  }

  predicate HasBasicPrefix(header: string) {
    |header| >= |BasicPrefix| && header[..|BasicPrefix|] == BasicPrefix
  }

  /**
   * Accepts exactly when the header starts with `Basic `, its token decodes,
   * the decoded text has a colon, and its second colon-separated field is the
   * merchant key. A decoding failure or a missing field rejects rather than
   * raising.
   */
  function VerifyPaycomAuth(authHeader: string, merchantKey: string,
                            b64decode: string -> Option<string>): (ok: bool)
    ensures ok ==> HasBasicPrefix(authHeader)
    ensures ok ==> b64decode(authHeader[|BasicPrefix|..]).Some?
    ensures ok ==> ':' !in merchantKey
  {
    if !HasBasicPrefix(authHeader) then false
    else
      match b64decode(authHeader[|BasicPrefix|..])
      case None => false
      case Some(decoded) =>
        var fields := Split(decoded, ':');
        |fields| >= 2 && fields[1] == merchantKey
  }

  /** Splitting `a + [sep] + b` where `a` has no separator puts `a` first. */
  lemma {:induction false} SplitAfterField(a: string, b: string, sep: char)
    requires sep !in a
    ensures Split(a + [sep] + b, sep) == [a] + Split(b, sep)
    decreases |a|
  {
    if |a| == 0 {
      assert a + [sep] + b == [sep] + b;
      assert ([sep] + b)[1..] == b;
    } else {
      var s := a + [sep] + b;
      assert s[0] == a[0];
      assert s[1..] == a[1..] + [sep] + b;
      SplitAfterField(a[1..], b, sep);
      assert [a[0]] + a[1..] == a;
    }
  }

  /**
   * Acceptance, from fields: a token decoding to `login:key` or
   * `login:key:more`, with no colon in the login and the key, is accepted.
   */
  lemma AcceptsWellFormedToken(authHeader: string, merchantKey: string,
                               b64decode: string -> Option<string>,
                               login: string, more: string)
    requires HasBasicPrefix(authHeader)
    requires b64decode(authHeader[|BasicPrefix|..]) == Some(login + [':'] + merchantKey + more)
    requires ':' !in login && ':' !in merchantKey
    requires more == [] || more[0] == ':'
    ensures VerifyPaycomAuth(authHeader, merchantKey, b64decode)
  {
    var decoded := login + [':'] + merchantKey + more;
    assert decoded == login + [':'] + (merchantKey + more);
    SplitAfterField(login, merchantKey + more, ':');
    if more == [] {
      assert merchantKey + more == merchantKey;
    } else {
      assert merchantKey + more == merchantKey + [':'] + more[1..];
      SplitAfterField(merchantKey, more[1..], ':');
    }
  }

  /**
   * Acceptance, to fields: whatever is accepted decodes to `login:key` or
   * `login:key:more`, so the key compared is exactly the second field.
   */
  lemma AcceptedTokenHasKeyField(authHeader: string, merchantKey: string,
                                 b64decode: string -> Option<string>)
    returns (login: string, more: string)
    requires VerifyPaycomAuth(authHeader, merchantKey, b64decode)
    ensures b64decode(authHeader[|BasicPrefix|..]) == Some(login + [':'] + merchantKey + more)
    ensures ':' !in login
    ensures more == [] || more[0] == ':'
  {
    var decoded := b64decode(authHeader[|BasicPrefix|..]).value;
    var fields := Split(decoded, ':');
    login := fields[0];
    assert Join(fields, ':') == login + [':'] + Join(fields[1..], ':');
    var tail := fields[1..];
    assert tail[0] == merchantKey;
    if |tail| == 1 {
      more := [];
      assert Join(tail, ':') == merchantKey;
    } else {
      more := [':'] + Join(tail[1..], ':');
      assert Join(tail, ':') == merchantKey + [':'] + Join(tail[1..], ':');
    }
    assert Join(tail, ':') == merchantKey + more;
    assert decoded == login + [':'] + (merchantKey + more);
    assert login + [':'] + (merchantKey + more) == login + [':'] + merchantKey + more;
  }

  /** A decoded token without any colon is rejected. */
  lemma RejectsTokenWithoutColon(authHeader: string, merchantKey: string,
                                 b64decode: string -> Option<string>)
    requires HasBasicPrefix(authHeader)
    requires b64decode(authHeader[|BasicPrefix|..]).Some?
    requires ':' !in b64decode(authHeader[|BasicPrefix|..]).value
    ensures !VerifyPaycomAuth(authHeader, merchantKey, b64decode)
  {
  }
}

/** The session helpers of public/js/auth.js over the browser's localStorage. */
module Session {
  import opened Wrappers
  import opened Config

  /** The value stored under key, or None (null) when the key is missing. */
  function Lookup(items: map<string, string>, key: string): (v: Option<string>)
    ensures v.Some? <==> key in items
    ensures v.Some? ==> v.value == items[key]
  {
    if key in items then Some(items[key]) else None
  }

  /** localStorage: a map from keys to texts, updated in place. */
  class Storage {
    var items: map<string, string>

    constructor (initial: map<string, string>)
      ensures items == initial
    {
      items := initial;
    }

    /** localStorage.getItem: null (None) for a missing key. */
    function GetItem(key: string): (v: Option<string>)
      reads this
      ensures v.Some? <==> key in items
      ensures v.Some? ==> v.value == items[key]
    {
      Lookup(items, key)
    }

    /** localStorage.setItem. */
    method SetItem(key: string, value: string)
      modifies this
      ensures items == old(items)[key := value]
    {
      items := items[key := value];
    }

    /** storeAuthToken: the token is written under TOKEN_KEY and read back
        unchanged; every other key keeps its value. */
    method StoreAuthToken(token: string)
      modifies this
      ensures items == old(items)[TOKEN_KEY := token]
      ensures RetrieveAuthToken() == Some(token)
      ensures forall k :: k != TOKEN_KEY ==> GetItem(k) == old(GetItem(k))
    {
      items := items[TOKEN_KEY := token];
    }

    /** retrieveAuthToken. */
    function RetrieveAuthToken(): (t: Option<string>)
      reads this
      ensures t.Some? <==> TOKEN_KEY in items
      ensures t.Some? ==> t.value == items[TOKEN_KEY]
    {
      GetItem(TOKEN_KEY)
    }

    /** storeUserID: the id is written under USER_ID_KEY and read back
        unchanged; every other key, the token's included, keeps its value. */
    method StoreUserID(userId: string)
      modifies this
      ensures items == old(items)[USER_ID_KEY := userId]
      ensures RetrieveUserID() == Some(userId)
      ensures RetrieveAuthToken() == old(RetrieveAuthToken())
      ensures forall k :: k != USER_ID_KEY ==> GetItem(k) == old(GetItem(k))
    {
      items := items[USER_ID_KEY := userId];
    }

    /** retrieveUserID. */
    function RetrieveUserID(): (u: Option<string>)
      reads this
      ensures u.Some? <==> USER_ID_KEY in items
      ensures u.Some? ==> u.value == items[USER_ID_KEY]
    {
      GetItem(USER_ID_KEY)
    }

    /** clearAuthData: exactly the token and the user id are removed; the
        event id and every other key keep their values. */
    method ClearAuthData()
      modifies this
      ensures items == old(items) - {TOKEN_KEY, USER_ID_KEY}
      ensures RetrieveAuthToken() == None && RetrieveUserID() == None
      ensures GetItem(EVENT_ID_KEY) == old(GetItem(EVENT_ID_KEY))
    {
      items := items - {TOKEN_KEY};
      items := items - {USER_ID_KEY};
    }

    /** checkIfAuthenticated: a token is stored. An empty token counts. */
    function CheckIfAuthenticated(): (b: bool)
      reads this
      ensures b <==> TOKEN_KEY in items
      ensures b ==> RetrieveAuthToken().Some?
    {
      var token := RetrieveAuthToken();
      token != None
    }
  }

  /** What JSON.parse gives for the decoded payload: a falsy JSON value
      (null, false, 0, ""), or an object whose `sub` field is absent or
      null (None) or a text. */
  datatype Payload = FalsyJson | Claims(sub: Option<string>)

  /** String.prototype.split with a one-character separator. */
  function Split(s: string, sep: char): (parts: seq<string>)
    ensures |parts| >= 1
    ensures forall i :: 0 <= i < |parts| ==> sep !in parts[i]
  {
    if s == [] then [[]]
    else
      var rest := Split(s[1..], sep);
      if s[0] == sep then [[]] + rest
      else [[s[0]] + rest[0]] + rest[1..]
  }

  /** Array.prototype.join with a one-character separator. */
  function Join(parts: seq<string>, sep: char): string
    requires |parts| >= 1
    decreases |parts|
  {
    if |parts| == 1 then parts[0] else parts[0] + [sep] + Join(parts[1..], sep)
  }

  /** Joining the parts of a split gives back the text: no character is
      lost or moved. */
  lemma {:induction false} SplitJoin(s: string, sep: char)
    ensures Join(Split(s, sep), sep) == s
  {
    if s != [] {
      var rest := Split(s[1..], sep);
      SplitJoin(s[1..], sep);
      if s[0] == sep {
        assert ([[]] + rest)[1..] == rest;
      } else if |rest| > 1 {
        var parts := [[s[0]] + rest[0]] + rest[1..];
        assert parts[1..] == rest[1..];
        assert Join(rest, sep) == rest[0] + [sep] + Join(rest[1..], sep);
        assert s == [s[0]] + s[1..];
      } else {
        assert s == [s[0]] + s[1..];
      }
    }
  }

  /** A text without the separator splits into itself alone. */
  lemma {:induction false} SplitWithoutSeparator(s: string, sep: char)
    requires sep !in s
    ensures Split(s, sep) == [s]
  {
    if s != [] {
      SplitWithoutSeparator(s[1..], sep);
      assert s == [s[0]] + s[1..];
    }
  }

  /** A separator-free head is the first part; the rest splits on its own. */
  lemma {:induction false} SplitAfterHead(h: string, sep: char, rest: string)
    requires sep !in h
    ensures Split(h + [sep] + rest, sep) == [h] + Split(rest, sep)
    decreases |h|
  {
    if h == [] {
      assert [] + [sep] + rest == [sep] + rest;
      assert ([sep] + rest)[1..] == rest;
    } else {
      var t := h + [sep] + rest;
      assert t[1..] == h[1..] + [sep] + rest;
      SplitAfterHead(h[1..], sep, rest);
      assert [h[0]] + h[1..] == h;
    }
  }

  /** parseJWTToken: decode (atob, then JSON.parse; None when either throws)
      the part at index 1 of the '.'-split token. A token with fewer than two
      parts leaves that part undefined, and atob("undefined") always throws
      (its length 9 is 1 modulo 4), so the result is null. */
  function ParseJWTToken(token: string, decode: string -> Option<Payload>): (p: Option<Payload>)
    ensures '.' !in token ==> p == None
  {
    var parts := Split(token, '.');
    if '.' !in token then SplitWithoutSeparator(token, '.'); None
    else if |parts| < 2 then None
    else decode(parts[1])
  }

  /** For a token of the form header.payload.signature, the payload segment
      is the one decoded. */
  lemma ParseJWTTokenDecodesPayload(header: string, payload: string, signature: string, decode: string -> Option<Payload>)
    requires '.' !in header && '.' !in payload
    ensures ParseJWTToken(header + "." + payload + "." + signature, decode) == decode(payload)
  {
    var token := header + "." + payload + "." + signature;
    assert token == header + ['.'] + (payload + "." + signature);
    SplitAfterHead(header, '.', payload + "." + signature);
    SplitAfterHead(payload, '.', signature);
    assert '.' in token by { assert token[|header|] == '.'; }
  }

  /** extractUserID: the payload's `sub` when the payload decodes to an
      object whose `sub` is truthy, and null otherwise. */
  function ExtractUserID(token: string, decode: string -> Option<Payload>): (u: Option<string>)
    ensures Truthy(u) <==> u.Some?
    ensures u.Some? ==> ParseJWTToken(token, decode) == Some(Claims(u))
    ensures u.None? ==> !(ParseJWTToken(token, decode).Some?
                          && ParseJWTToken(token, decode).value.Claims?
                          && Truthy(ParseJWTToken(token, decode).value.sub))
  {
    var decoded := ParseJWTToken(token, decode);
    if decoded.Some? && decoded.value.Claims? && Truthy(decoded.value.sub) then decoded.value.sub else None
  }

  /** The text encodeLoginData hands to btoa: username ':' password. */
  function Credentials(username: string, password: string): (c: string)
    ensures |c| == |username| + 1 + |password|
    ensures c[..|username|] == username && c[|username|] == ':' && c[|username| + 1..] == password
  {
    username + ":" + password
  }

  /** The part of a text before its first occurrence of c, and the part after it. */
  function SplitAtFirst(s: string, c: char): (string, string)
    requires c in s
  {
    if s[0] == c then ([], s[1..])
    else var (before, after) := SplitAtFirst(s[1..], c); ([s[0]] + before, after)
  }

  /** A Basic credential can be taken apart again at its first colon when
      the username has none, which is what section 2 of RFC 7617 demands of
      a user-id. */
  lemma {:induction false} CredentialsRoundTrip(username: string, password: string)
    requires ':' !in username
    ensures ':' in Credentials(username, password)
    ensures SplitAtFirst(Credentials(username, password), ':') == (username, password)
    decreases |username|
  {
    var s := Credentials(username, password);
    assert s[|username|] == ':';
    if username != [] {
      assert s[1..] == Credentials(username[1..], password);
      CredentialsRoundTrip(username[1..], password);
      assert [username[0]] + username[1..] == username;
    }
  }
}

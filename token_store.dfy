/** Refresh tokens in the key-value store: each token is a dash-free random
    UUID, kept under `playforge:refresh_token:<token>` with the user id as
    its decimal text. Entry expiry is not modelled. */
module TokenStore {
  import opened Wrappers
  import opened Strs

  const REFRESH_TOKEN_PREFIX: string := "playforge:refresh_token:"

  /** The store key of a token. */
  function KeyOf(token: string): string {
    REFRESH_TOKEN_PREFIX + token
  }

  /** Distinct tokens live under distinct keys. */
  lemma KeyOfInjective(a: string, b: string)
    requires KeyOf(a) == KeyOf(b)
    ensures a == b
  {
    assert a == KeyOf(a)[|REFRESH_TOKEN_PREFIX|..];
    assert b == KeyOf(b)[|REFRESH_TOKEN_PREFIX|..];
  }

  /** The token made from a random UUID: its text without the dashes. */
  function NewToken(u: Uuid): (t: string)
    requires u.Valid()
    ensures |t| == 32 && AllHex(t)
  {
    UuidWithoutDashes(u);
    RemoveDashes(u.Text())
  }

  /** `getUserIdByRefreshToken` on the store's entries: the parsed user id,
      or None when the key is absent. */
  function UserIdOf(entries: map<string, string>, token: string): (r: Option<int>)
    ensures r.Some? ==> KeyOf(token) in entries && LONG_MIN <= r.value <= LONG_MAX
  {
    if KeyOf(token) in entries then ParseLong(entries[KeyOf(token)]) else None
  }

  /** The entries after `createRefreshToken(userId)` hands out `token`. */
  function Stored(entries: map<string, string>, token: string, userId: int): map<string, string> {
    entries[KeyOf(token) := IntToString(userId)]
  }

  /** The entries after `deleteRefreshToken(token)`. */
  function Deleted(entries: map<string, string>, token: string): map<string, string> {
    entries - {KeyOf(token)}
  }

  /** A stored token reads back as its user; every other token reads as
      before. */
  lemma StoredIsFound(entries: map<string, string>, token: string, userId: int, other: string)
    requires LONG_MIN <= userId <= LONG_MAX
    ensures UserIdOf(Stored(entries, token, userId), other) ==
      if other == token then Some(userId) else UserIdOf(entries, other)
  {
    if other == token {
      ParseLongRoundTrip(userId);
    } else if KeyOf(other) == KeyOf(token) {
      KeyOfInjective(other, token);
    }
  }

  /** A deleted token reads as absent; every other token reads as before. */
  lemma DeletedIsGone(entries: map<string, string>, token: string, other: string)
    ensures UserIdOf(Deleted(entries, token), other) ==
      if other == token then None else UserIdOf(entries, other)
  {
    if other != token && KeyOf(other) == KeyOf(token) {
      KeyOfInjective(other, token);
    }
  }

  /** One store operation. */
  datatype TokenOp = Create(token: string, userId: int) | Delete(token: string)

  /** The entries after a history of operations on an empty store. */
  function Replay(ops: seq<TokenOp>): map<string, string> {
    if |ops| == 0 then map[]
    else
      var before := Replay(ops[..|ops| - 1]);
      match ops[|ops| - 1]
      case Create(t, u) => Stored(before, t, u)
      case Delete(t) => Deleted(before, t)
  }

  /** A token that no operation created reads as absent. */
  lemma {:induction false} NeverCreatedIsAbsent(ops: seq<TokenOp>, token: string)
    requires forall i :: 0 <= i < |ops| && ops[i].Create? ==> ops[i].token != token
    ensures UserIdOf(Replay(ops), token) == None
  {
    if |ops| > 0 {
      var init := ops[..|ops| - 1];
      assert forall i :: 0 <= i < |init| ==> init[i] == ops[i];
      NeverCreatedIsAbsent(init, token);
      match ops[|ops| - 1]
      case Create(t, u) =>
        if KeyOf(token) == KeyOf(t) {
          KeyOfInjective(token, t);
        }
      case Delete(t) =>
        DeletedIsGone(Replay(init), t, token);
    }
  }

  /** The store. */
  class RedisTokenStore {
    var entries: map<string, string>

    constructor ()
      ensures entries == map[]
    {
      entries := map[];
    }

    /** `createRefreshToken` with `u` the random UUID. */
    method CreateRefreshToken(userId: int, u: Uuid) returns (token: string)
      requires u.Valid()
      modifies this
      ensures token == NewToken(u)
      ensures entries == Stored(old(entries), token, userId)
    {
      token := NewToken(u);
      entries := entries[KeyOf(token) := IntToString(userId)];
    }

    /** `getUserIdByRefreshToken`. */
    function GetUserIdByRefreshToken(token: string): Option<int>
      reads this
    {
      UserIdOf(entries, token)
    }

    /** `deleteRefreshToken`. */
    method DeleteRefreshToken(token: string)
      modifies this
      ensures entries == Deleted(old(entries), token)
    {
      entries := entries - {KeyOf(token)};
    }
  }
}

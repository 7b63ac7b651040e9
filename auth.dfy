/** Authentication: registration, login, refresh-token rotation, logout and
    the current-user read. The password encoder and the access-token signer
    are passed in as functions; the encoder's salt and the refresh token's
    UUID, random in the service, are parameters of the operations. */
module Auth {
  import opened Wrappers
  import opened Strs
  import opened Domain
  import opened ResultCodes
  import opened Users
  import opened TokenStore

  /** A salted one-way encoder and its check. It is sound when every
      encoding of a password matches that password. */
  datatype PasswordEncoder = PasswordEncoder(encode: (string, int) -> string, matches: (string, string) -> bool) {
    ghost predicate Sound() {
      forall raw: string, salt: int :: matches(raw, encode(raw, salt))
    }
  }

  /** What register, login and refresh hand back. */
  datatype TokenPair = TokenPair(accessToken: string, refreshToken: string)

  /** The row `register` inserts (before the table gives it an id): the
      encoded password, never an administrator. */
  function NewUser(phone: string, encoded: string, nickname: Option<string>, avatarUrl: Option<string>,
                   bio: Option<string>): User {
    Users.User(0, phone, encoded, nickname, avatarUrl, bio, false)
  }

  /** The check of `login`: an unknown phone and a wrong password both give
      CREDENTIALS_ERROR. */
  function LoginCheck(rows: seq<User>, encoder: PasswordEncoder, phone: string, password: string): (r: Result<User, BusinessException>)
    ensures r.Ok? ==> r.value in rows && r.value.phone == phone && encoder.matches(password, r.value.password)
    ensures r.Err? ==> r.error == Biz(CREDENTIALS_ERROR)
  {
    match WithPhone(rows, phone)
    case None => Err(Biz(CREDENTIALS_ERROR))
    case Some(u) => if !encoder.matches(password, u.password) then Err(Biz(CREDENTIALS_ERROR)) else Ok(u)
  }

  /** With unique phones, login succeeds exactly for a stored row with that
      phone whose password matches, and then yields that row. */
  lemma LoginCheckSpec(rows: seq<User>, encoder: PasswordEncoder, phone: string, password: string)
    requires PhonesUnique(rows)
    ensures LoginCheck(rows, encoder, phone, password).Ok? <==>
      exists u :: u in rows && u.phone == phone && encoder.matches(password, u.password)
    ensures forall u :: u in rows && u.phone == phone && encoder.matches(password, u.password) ==>
      LoginCheck(rows, encoder, phone, password) == Ok(u)
  {
    forall u | u in rows && u.phone == phone
      ensures WithPhone(rows, phone) == Some(u)
    {
      WithPhoneOfRow(rows, u);
    }
  }

  /** A registered account can log in with the password it registered with,
      and registration keeps phones unique. */
  lemma RegisteredCanLogIn(rows: seq<User>, encoder: PasswordEncoder, phone: string, password: string, salt: int,
                           nickname: Option<string>, avatarUrl: Option<string>, bio: Option<string>, id: int)
    requires encoder.Sound() && PhonesUnique(rows) && WithPhone(rows, phone).None?
    ensures var u := NewUser(phone, encoder.encode(password, salt), nickname, avatarUrl, bio).(id := id);
      && PhonesUnique(rows + [u])
      && LoginCheck(rows + [u], encoder, phone, password) == Ok(u)
  {
    var u := NewUser(phone, encoder.encode(password, salt), nickname, avatarUrl, bio).(id := id);
    WithPhoneAppend(rows, u);
    assert encoder.matches(password, encoder.encode(password, salt));
  }

  /** The token entries after a refresh of `token` by user `userId` that
      hands out `issued`: the old token deleted, the new one stored. */
  function Rotated(entries: map<string, string>, token: string, issued: string, userId: int): map<string, string> {
    Stored(Deleted(entries, token), issued, userId)
  }

  /** Rotation retires the presented token, so it refreshes at most once; the
      new token belongs to the same user and no other token changes owner. */
  lemma RotationRetiresToken(entries: map<string, string>, token: string, issued: string)
    requires UserIdOf(entries, token).Some? && issued != token
    ensures var userId := UserIdOf(entries, token).value;
      var after := Rotated(entries, token, issued, userId);
      && UserIdOf(after, token) == None
      && UserIdOf(after, issued) == Some(userId)
      && forall other :: other != token && other != issued ==> UserIdOf(after, other) == UserIdOf(entries, other)
  {
    var userId := UserIdOf(entries, token).value;
    var deleted := Deleted(entries, token);
    StoredIsFound(deleted, issued, userId, token);
    DeletedIsGone(entries, token, token);
    StoredIsFound(deleted, issued, userId, issued);
    forall other | other != token && other != issued
      ensures UserIdOf(Rotated(entries, token, issued, userId), other) == UserIdOf(entries, other)
    {
      StoredIsFound(deleted, issued, userId, other);
      DeletedIsGone(entries, token, other);
    }
  }

  class AuthService {
    const users: UserRepository
    const tokens: RedisTokenStore
    const cache: UserCache
    const encoder: PasswordEncoder
    /** `generateAccessToken`: the signed access token of a user id. */
    const accessToken: int -> string

    /** The table is well formed with unique phones, the cache agrees with
        the table, and the encoder is sound. */
    ghost predicate Valid()
      reads this, users, cache
    {
      users.Valid() && PhonesUnique(users.rows) && Coherent(cache.cached, users.rows) && encoder.Sound()
    }

    constructor (users: UserRepository, tokens: RedisTokenStore, cache: UserCache, encoder: PasswordEncoder,
                 accessToken: int -> string)
      requires users.Valid() && PhonesUnique(users.rows) && Coherent(cache.cached, users.rows) && encoder.Sound()
      ensures Valid()
      ensures this.users == users && this.tokens == tokens && this.cache == cache
      ensures this.encoder == encoder && this.accessToken == accessToken
    {
      this.users := users;
      this.tokens := tokens;
      this.cache := cache;
      this.encoder := encoder;
      this.accessToken := accessToken;
    }

    /** `register`: a taken phone is PHONE_ALREADY_REGISTERED and nothing is
        stored; otherwise the new row is inserted with the encoded password
        and a token pair issued for it. */
    method Register(phone: string, password: string, nickname: Option<string>, avatarUrl: Option<string>,
                    bio: Option<string>, salt: int, u: Uuid) returns (r: Result<TokenPair, BusinessException>)
      requires Valid() && u.Valid()
      modifies users, tokens
      ensures Valid()
      ensures WithPhone(old(users.rows), phone).Some? ==>
        && r == Err(Biz(PHONE_ALREADY_REGISTERED))
        && users.rows == old(users.rows) && tokens.entries == old(tokens.entries)
      ensures WithPhone(old(users.rows), phone).None? ==>
        var id := old(users.nextId);
        && users.rows == old(users.rows) + [NewUser(phone, encoder.encode(password, salt), nickname, avatarUrl, bio).(id := id)]
        && r == Ok(TokenPair(accessToken(id), NewToken(u)))
        && tokens.entries == Stored(old(tokens.entries), NewToken(u), id)
    {
      if users.FindByPhone(phone).Some? {
        return Err(Biz(PHONE_ALREADY_REGISTERED));
      }
      var user := NewUser(phone, encoder.encode(password, salt), nickname, avatarUrl, bio);
      ghost var before := users.rows;
      WithPhoneAppend(before, user.(id := users.nextId));
      CoherentAfterInsert(cache.cached, before, users.nextId, user.(id := users.nextId));
      var id := users.Insert(user);
      var pair := GenerateTokenPair(id, u);
      r := Ok(pair);
    }

    /** `login`: on success the user is cached and a token pair issued. */
    method Login(phone: string, password: string, u: Uuid) returns (r: Result<TokenPair, BusinessException>)
      requires Valid() && u.Valid()
      modifies tokens, cache
      ensures Valid()
      ensures match LoginCheck(users.rows, encoder, phone, password)
        case Err(e) => r == Err(e) && tokens.entries == old(tokens.entries) && cache.cached == old(cache.cached)
        case Ok(user) =>
          && r == Ok(TokenPair(accessToken(user.id), NewToken(u)))
          && tokens.entries == Stored(old(tokens.entries), NewToken(u), user.id)
          && cache.cached == old(cache.cached)[user.id := user]
    {
      var found := LoginCheck(users.rows, encoder, phone, password);
      if found.Err? {
        return Err(found.error);
      }
      CacheStoredRow(cache.cached, users.rows, users.nextId, found.value);
      cache.CacheUser(found.value);
      var pair := GenerateTokenPair(found.value.id, u);
      r := Ok(pair);
    }

    /** `refresh`: an unknown token is REFRESH_TOKEN_INVALID; otherwise the
        token is rotated and a pair issued for its user. */
    method Refresh(refreshToken: string, u: Uuid) returns (r: Result<TokenPair, BusinessException>)
      requires Valid() && u.Valid()
      modifies tokens
      ensures Valid()
      ensures match UserIdOf(old(tokens.entries), refreshToken)
        case None => r == Err(Biz(REFRESH_TOKEN_INVALID)) && tokens.entries == old(tokens.entries)
        case Some(userId) =>
          && r == Ok(TokenPair(accessToken(userId), NewToken(u)))
          && tokens.entries == Rotated(old(tokens.entries), refreshToken, NewToken(u), userId)
    {
      var userId := tokens.GetUserIdByRefreshToken(refreshToken);
      if userId.None? {
        return Err(Biz(REFRESH_TOKEN_INVALID));
      }
      tokens.DeleteRefreshToken(refreshToken);
      var pair := GenerateTokenPair(userId.value, u);
      r := Ok(pair);
    }

    /** `logout`: a null token does nothing, any other is deleted. */
    method Logout(refreshToken: Option<string>)
      modifies tokens
      ensures refreshToken.None? ==> tokens.entries == old(tokens.entries)
      ensures refreshToken.Some? ==> tokens.entries == Deleted(old(tokens.entries), refreshToken.value)
    {
      if refreshToken.Some? {
        tokens.DeleteRefreshToken(refreshToken.value);
      }
    }

    /** `getCurrentUser`: the cached user, else the stored one (then
        cached), else USER_NOT_FOUND. */
    method GetCurrentUser(userId: int) returns (r: Result<User, BusinessException>)
      requires Valid()
      modifies cache
      ensures Valid()
      ensures r == Profile(old(cache.cached), users.rows, userId)
      ensures cache.cached == CacheAfterProfile(old(cache.cached), users.rows, userId)
    {
      ProfileIsStoredRow(cache.cached, users.rows, userId);
      var cached := cache.GetCachedUser(userId);
      if cached.Some? {
        return Ok(cached.value);
      }
      var user := users.FindById(userId);
      if user.None? {
        return Err(Biz(USER_NOT_FOUND));
      }
      cache.CacheUser(user.value);
      r := Ok(user.value);
    }

    /** `generateTokenPair`: an access token and one new refresh token. */
    method GenerateTokenPair(userId: int, u: Uuid) returns (pair: TokenPair)
      requires u.Valid()
      modifies tokens
      ensures pair == TokenPair(accessToken(userId), NewToken(u))
      ensures tokens.entries == Stored(old(tokens.entries), NewToken(u), userId)
    {
      var refresh := tokens.CreateRefreshToken(userId, u);
      pair := TokenPair(accessToken(userId), refresh);
    }
  }
}

/** Profiles: the cache-first profile read and the partial profile update,
    which rewrites only the fields it is given, stores the row, and replaces
    the cached copy. */
module UserService {
  import opened Wrappers
  import opened Domain
  import opened ResultCodes
  import opened Users

  /** The user with each given (non-null) field overwritten. */
  function Patched(u: User, nickname: Option<string>, avatarUrl: Option<string>, bio: Option<string>): User {
    u.(nickname := if nickname.Some? then nickname else u.nickname,
       avatarUrl := if avatarUrl.Some? then avatarUrl else u.avatarUrl,
       bio := if bio.Some? then bio else u.bio)
  }

  /** A given field takes the given value, an absent one keeps the stored
      value, and nothing else about the user changes. */
  lemma PatchedFields(u: User, nickname: Option<string>, avatarUrl: Option<string>, bio: Option<string>)
    ensures var p := Patched(u, nickname, avatarUrl, bio);
      && (nickname.Some? ==> p.nickname == nickname) && (nickname.None? ==> p.nickname == u.nickname)
      && (avatarUrl.Some? ==> p.avatarUrl == avatarUrl) && (avatarUrl.None? ==> p.avatarUrl == u.avatarUrl)
      && (bio.Some? ==> p.bio == bio) && (bio.None? ==> p.bio == u.bio)
      && p.(nickname := u.nickname, avatarUrl := u.avatarUrl, bio := u.bio) == u
    ensures Patched(u, None, None, None) == u
  {
  }

  /** `updateProfile` on the table: USER_NOT_FOUND for a missing user,
      otherwise the patched row stored in place of the old one. */
  function UpdateProfileOn(rows: seq<User>, userId: int, nickname: Option<string>, avatarUrl: Option<string>,
                           bio: Option<string>): (r: Result<seq<User>, BusinessException>)
    ensures r.Err? <==> Lookup(rows, userId, UserId).None?
    ensures r.Err? ==> r.error == Biz(USER_NOT_FOUND)
  {
    match Lookup(rows, userId, UserId)
    case None => Err(Biz(USER_NOT_FOUND))
    case Some(u) => Ok(Replace(rows, Patched(u, nickname, avatarUrl, bio), UserId))
  }

  /** After a successful update the user reads back patched, every other
      user reads back as before, and the ids stay increasing. */
  lemma UpdateProfileSpec(rows: seq<User>, next: int, userId: int, nickname: Option<string>, avatarUrl: Option<string>,
                          bio: Option<string>)
    requires IdsIncreasing(rows, UserId, next)
    ensures var r := UpdateProfileOn(rows, userId, nickname, avatarUrl, bio);
      r.Ok? ==>
        && IdsIncreasing(r.value, UserId, next)
        && Lookup(r.value, userId, UserId) == Some(Patched(Lookup(rows, userId, UserId).value, nickname, avatarUrl, bio))
        && forall id :: id != userId ==> Lookup(r.value, id, UserId) == Lookup(rows, id, UserId)
  {
    var found := Lookup(rows, userId, UserId);
    if found.Some? {
      var p := Patched(found.value, nickname, avatarUrl, bio);
      ReplaceKeepsIdsIncreasing(rows, p, UserId, next);
      forall id
        ensures Lookup(Replace(rows, p, UserId), id, UserId) == if id == userId then Some(p) else Lookup(rows, id, UserId)
      {
        LookupAfterReplace(rows, p, UserId, next, id);
      }
    }
  }

  /** Every stored row with the row's id is already that row: replacing it
      changes nothing. */
  lemma ReplaceWithStored(rows: seq<User>, next: int, u: User)
    requires IdsIncreasing(rows, UserId, next) && Lookup(rows, u.id, UserId) == Some(u)
    ensures Replace(rows, u, UserId) == rows
  {
    var r := Replace(rows, u, UserId);
    forall i | 0 <= i < |rows| && rows[i].id == u.id
      ensures rows[i] == u
    {
      LookupOfRow(rows, rows[i], UserId, next);
    }
    assert forall i :: 0 <= i < |rows| ==> r[i] == rows[i];
  }

  /** The update is idempotent: applying it to its own result stores the
      same table again. */
  lemma UpdateProfileIdempotent(rows: seq<User>, next: int, userId: int, nickname: Option<string>,
                                avatarUrl: Option<string>, bio: Option<string>)
    requires IdsIncreasing(rows, UserId, next)
    ensures var once := UpdateProfileOn(rows, userId, nickname, avatarUrl, bio);
      once.Ok? ==> UpdateProfileOn(once.value, userId, nickname, avatarUrl, bio) == once
  {
    var once := UpdateProfileOn(rows, userId, nickname, avatarUrl, bio);
    if once.Ok? {
      UpdateProfileSpec(rows, next, userId, nickname, avatarUrl, bio);
      var p := Lookup(once.value, userId, UserId).value;
      assert Patched(p, nickname, avatarUrl, bio) == p;
      ReplaceWithStored(once.value, next, p);
    }
  }

  class UserProfileService {
    const users: UserRepository
    const cache: UserCache

    /** The table is well formed and the cache agrees with it. */
    ghost predicate Valid()
      reads this, users, cache
    {
      users.Valid() && Coherent(cache.cached, users.rows)
    }

    constructor (users: UserRepository, cache: UserCache)
      requires users.Valid() && Coherent(cache.cached, users.rows)
      ensures Valid() && this.users == users && this.cache == cache
    {
      this.users := users;
      this.cache := cache;
    }

    /** `getProfile`: the cached user, else the stored one (then cached),
        else USER_NOT_FOUND. */
    method GetProfile(userId: int) returns (r: Result<User, BusinessException>)
      requires Valid()
      modifies cache
      ensures Valid()
      ensures r == Profile(old(cache.cached), users.rows, userId)
      ensures cache.cached == CacheAfterProfile(old(cache.cached), users.rows, userId)
    {
      ProfileIsStoredRow(cache.cached, users.rows, userId);
      var cached := cache.GetCachedUser(userId);
      if cached.Some? {
        return Ok(cached.value);
      }
      var user := users.FindById(userId);
      if user.None? {
        return Err(Biz(USER_NOT_FOUND));
      }
      cache.CacheUser(user.value);
      r := Ok(user.value);
    }

    /** `updateProfile`: a missing user is USER_NOT_FOUND and nothing
        changes; otherwise the patched row is stored, the old cache entry
        evicted and the patched user cached. */
    method UpdateProfile(userId: int, nickname: Option<string>, avatarUrl: Option<string>, bio: Option<string>)
      returns (r: Result<User, BusinessException>)
      requires Valid()
      modifies users, cache
      ensures Valid()
      ensures match UpdateProfileOn(old(users.rows), userId, nickname, avatarUrl, bio)
        case Err(e) => r == Err(e) && users.rows == old(users.rows) && cache.cached == old(cache.cached)
        case Ok(rows) =>
          && users.rows == rows
          && r == Ok(Patched(Lookup(old(users.rows), userId, UserId).value, nickname, avatarUrl, bio))
          && cache.cached == old(cache.cached)[userId := r.value]
    {
      var user := users.FindById(userId);
      if user.None? {
        return Err(Biz(USER_NOT_FOUND));
      }
      var updated := Patched(user.value, nickname, avatarUrl, bio);
      Store(updated);
      r := Ok(updated);
    }

    /** The write half of `updateProfile`: store the row, evict the old
        cache entry, cache the new one. */
    method Store(updated: User)
      requires Valid() && Lookup(users.rows, updated.id, UserId).Some?
      modifies users, cache
      ensures Valid()
      ensures users.rows == Replace(old(users.rows), updated, UserId)
      ensures cache.cached == old(cache.cached)[updated.id := updated]
    {
      CoherentAfterUpdate(cache.cached, users.rows, users.nextId, updated);
      users.Update(updated);
      cache.EvictUser(updated.id);
      cache.CacheUser(updated);
      assert cache.cached == old(cache.cached)[updated.id := updated];
    }
  }
}

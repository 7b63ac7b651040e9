/** Accounts: the stored user row, the user table with its phone lookup, and
    the user cache that the authentication and profile services read first.
    The cache is coherent when every cached user is the row the table holds
    under that id; both services keep it so. */
module Users {
  import opened Wrappers
  import opened Domain
  import opened ResultCodes

  /** A user row; `password` holds the encoded password, the nullable
      profile fields are options. */
  datatype User = User(id: int, phone: string, password: string, nickname: Option<string>,
                       avatarUrl: Option<string>, bio: Option<string>, isAdmin: bool)

  function UserId(u: User): int { u.id }

  /** `findByPhone`: the first row with that phone, if any. */
  function WithPhone(rows: seq<User>, phone: string): (r: Option<User>)
    ensures r.Some? ==> r.value in rows && r.value.phone == phone
    ensures r.None? <==> forall u :: u in rows ==> u.phone != phone
  {
    if |rows| == 0 then None
    else if rows[0].phone == phone then Some(rows[0])
    else
      assert forall u :: u in rows ==> u == rows[0] || u in rows[1..];
      WithPhone(rows[1..], phone)
  }

  /** No two rows share a phone. */
  predicate PhonesUnique(rows: seq<User>) {
    forall i, j :: 0 <= i < j < |rows| ==> rows[i].phone != rows[j].phone
  }

  /** With unique phones the row found for a phone is the only one with it. */
  lemma {:induction false} WithPhoneOfRow(rows: seq<User>, u: User)
    requires PhonesUnique(rows) && u in rows
    ensures WithPhone(rows, u.phone) == Some(u)
  {
    if rows[0] != u {
      var j :| 0 <= j < |rows| && rows[j] == u;
      assert j > 0 && rows[0].phone != rows[j].phone;
      assert rows[1..][j - 1] == u;
      WithPhoneOfRow(rows[1..], u);
    }
  }

  /** A row appended with a new phone is what a lookup of its phone finds,
      and the phones stay unique. */
  lemma {:induction false} WithPhoneAppend(rows: seq<User>, u: User)
    requires WithPhone(rows, u.phone).None?
    ensures WithPhone(rows + [u], u.phone) == Some(u)
    ensures PhonesUnique(rows) ==> PhonesUnique(rows + [u])
  {
    if |rows| > 0 {
      assert (rows + [u])[1..] == rows[1..] + [u];
      assert rows[0] in rows && rows[0].phone != u.phone;
      assert WithPhone(rows[1..], u.phone).None?;
      WithPhoneAppend(rows[1..], u);
    }
    var all := rows + [u];
    forall i, j | 0 <= i < j < |all| && PhonesUnique(rows)
      ensures all[i].phone != all[j].phone
    {
      if j == |rows| {
        assert all[i] in rows;
      }
    }
  }

  /** Every cached user is the row stored under its id. */
  ghost predicate Coherent(cached: map<int, User>, rows: seq<User>) {
    forall id :: id in cached ==> Lookup(rows, id, UserId) == Some(cached[id])
  }

  /** `getCachedUser`, then `findById`: the cached user, else the stored one,
      else USER_NOT_FOUND. */
  function Profile(cached: map<int, User>, rows: seq<User>, userId: int): Result<User, BusinessException> {
    if userId in cached then Ok(cached[userId])
    else match Lookup(rows, userId, UserId)
      case Some(u) => Ok(u)
      case None => Err(Biz(USER_NOT_FOUND))
  }

  /** The cache after `Profile`: a miss that finds the row caches it. */
  function CacheAfterProfile(cached: map<int, User>, rows: seq<User>, userId: int): map<int, User> {
    if userId in cached then cached
    else match Lookup(rows, userId, UserId)
      case Some(u) => cached[u.id := u]
      case None => cached
  }

  /** A coherent cache is invisible: the profile read is the table's row, or
      USER_NOT_FOUND when there is none, and the cache stays coherent. */
  lemma ProfileIsStoredRow(cached: map<int, User>, rows: seq<User>, userId: int)
    requires Coherent(cached, rows)
    ensures Profile(cached, rows, userId) ==
      match Lookup(rows, userId, UserId)
      case Some(u) => Ok(u)
      case None => Err(Biz(USER_NOT_FOUND))
    ensures Coherent(CacheAfterProfile(cached, rows, userId), rows)
    ensures userId in CacheAfterProfile(cached, rows, userId) <==> Lookup(rows, userId, UserId).Some?
  {
  }

  /** Caching a stored row keeps the cache coherent. */
  lemma CacheStoredRow(cached: map<int, User>, rows: seq<User>, next: int, u: User)
    requires Coherent(cached, rows) && IdsIncreasing(rows, UserId, next) && u in rows
    ensures Coherent(cached[u.id := u], rows)
  {
    LookupOfRow(rows, u, UserId, next);
  }

  /** Appending a row under a fresh id keeps the cache coherent. */
  lemma CoherentAfterInsert(cached: map<int, User>, rows: seq<User>, next: int, u: User)
    requires Coherent(cached, rows) && IdsIncreasing(rows, UserId, next) && u.id == next
    ensures Coherent(cached, rows + [u])
  {
    forall id | id in cached
      ensures Lookup(rows + [u], id, UserId) == Some(cached[id])
    {
      LookupAppendFresh(rows, u, UserId, id);
    }
  }

  /** Replacing a stored row and caching the replacement keeps the cache
      coherent. */
  lemma CoherentAfterUpdate(cached: map<int, User>, rows: seq<User>, next: int, u: User)
    requires Coherent(cached, rows) && IdsIncreasing(rows, UserId, next)
    requires Lookup(rows, u.id, UserId).Some?
    ensures Coherent(cached[u.id := u], Replace(rows, u, UserId))
  {
    forall id | id in cached[u.id := u]
      ensures Lookup(Replace(rows, u, UserId), id, UserId) == Some(cached[u.id := u][id])
    {
      LookupAfterReplace(rows, u, UserId, next, id);
    }
  }

  /** The user table. */
  class UserRepository {
    var rows: seq<User>
    var nextId: int

    ghost predicate Valid()
      reads this
    {
      IdsIncreasing(rows, UserId, nextId)
    }

    constructor ()
      ensures Valid() && rows == [] && nextId == 1
    {
      rows := [];
      nextId := 1;
    }

    /** `findById`. */
    function FindById(id: int): (r: Option<User>)
      reads this
      ensures r.Some? ==> r.value in rows && r.value.id == id
      ensures r.None? ==> forall u :: u in rows ==> u.id != id
    {
      Lookup(rows, id, UserId)
    }

    /** `findByPhone`. */
    function FindByPhone(phone: string): (r: Option<User>)
      reads this
      ensures r.Some? ==> r.value in rows && r.value.phone == phone
      ensures r.None? <==> forall u :: u in rows ==> u.phone != phone
    {
      WithPhone(rows, phone)
    }

    /** `insert`: stored under a freshly generated id. */
    method Insert(u: User) returns (id: int)
      requires Valid()
      modifies this
      ensures Valid()
      ensures id == old(nextId) && nextId == old(nextId) + 1
      ensures rows == old(rows) + [u.(id := id)]
    {
      id := nextId;
      AppendKeepsIdsIncreasing(rows, u.(id := id), UserId, nextId);
      rows := rows + [u.(id := id)];
      nextId := nextId + 1;
    }

    /** `update`: the row with the same id is replaced. */
    method Update(u: User)
      requires Valid()
      modifies this
      ensures Valid() && nextId == old(nextId)
      ensures rows == Replace(old(rows), u, UserId)
    {
      ReplaceKeepsIdsIncreasing(rows, u, UserId, nextId);
      rows := Replace(rows, u, UserId);
    }
  }

  /** The user cache, keyed by user id (entry expiry is not modelled). */
  class UserCache {
    var cached: map<int, User>

    constructor ()
      ensures cached == map[]
    {
      cached := map[];
    }

    /** `cacheUser`: stored under the user's own id. */
    method CacheUser(u: User)
      modifies this
      ensures cached == old(cached)[u.id := u]
    {
      cached := cached[u.id := u];
    }

    /** `getCachedUser`. */
    function GetCachedUser(userId: int): (r: Option<User>)
      reads this
      ensures r.Some? <==> userId in cached
      ensures r.Some? ==> r.value == cached[userId]
    {
      if userId in cached then Some(cached[userId]) else None
    }

    /** `evictUser`. */
    method EvictUser(userId: int)
      modifies this
      ensures cached == old(cached) - {userId}
    {
      cached := cached - {userId};
    }
  }
}

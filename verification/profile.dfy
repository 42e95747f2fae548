/**
 * The profile screen's user data (app/profile.tsx): the role and join year
 * shown for the signed-in user, fetched from the `users` table and cached
 * in local storage under `userRole-<id>` and `joinYear-<id>`.
 */
module Profile {
  import opened Wrappers
  import opened Text

  /** The `role, created_at` columns of the user's row. */
  datatype UserRow = UserRow(role: Option<string>, createdAt: Option<string>)

  /** How the `users` query ended: a reply with its data and error code, or a thrown exception. */
  datatype UserFetch = Replied(data: Option<UserRow>, errorCode: Option<string>) | Threw

  /** A session and its user's id (the user may be absent). */
  datatype Session = Session(userId: Option<string>)

  /** The backend's "no rows found" code, which is not treated as an error. */
  const NoRowsCode := "PGRST116"
  const RolePrefix := "userRole-"
  const YearPrefix := "joinYear-"

  function RoleKey(id: string): string {
    RolePrefix + id
  }

  function YearKey(id: string): string {
    YearPrefix + id
  }

  /** `s.substring(0, 4)`. */
  function YearOf(createdAt: string): (y: string)
    ensures |y| == if |createdAt| < 4 then |createdAt| else 4
    ensures y == createdAt[..|y|]
  {
    if |createdAt| < 4 then createdAt else createdAt[..4]
  }

  // ---------------------------------------------------------------------
  // The effect of fetchUserData
  // ---------------------------------------------------------------------

  predicate IsFetchError(o: UserFetch) {
    o.Replied? && o.errorCode.Some? && o.errorCode.value != NoRowsCode
  }

  /** The role state after the fetch. */
  function FetchedRole(o: UserFetch): Option<string> {
    if o.Threw? || IsFetchError(o) || o.data.None? then None
    else if Truthy(o.data.value.role) then o.data.value.role
    else None
  }

  /** The join-year state after the fetch. */
  function FetchedYear(o: UserFetch): Option<string> {
    if o.Threw? || IsFetchError(o) || o.data.None? then None
    else if Truthy(o.data.value.createdAt) then Some(YearOf(o.data.value.createdAt.value))
    else None
  }

  /** `value` written under `key`, or `key` removed when there is no value. */
  function Store(cache: map<string, string>, key: string, value: Option<string>): map<string, string> {
    if value.Some? then cache[key := value.value] else cache - {key}
  }

  /** The cache after the fetch: both keys follow the new state, except after an exception. */
  function CacheAfterFetch(cache: map<string, string>, id: string, o: UserFetch): map<string, string> {
    if o.Threw? then cache
    else Store(Store(cache, RoleKey(id), FetchedRole(o)), YearKey(id), FetchedYear(o))
  }

  /** A cached value as `checkSession` reads it: only a non-empty one counts. */
  function Cached(cache: map<string, string>, key: string): Option<string> {
    if key in cache && cache[key] != "" then Some(cache[key]) else None
  }

  // ---------------------------------------------------------------------
  // Properties of the fetch effect
  // ---------------------------------------------------------------------

  /** The role and year keys of two users coincide only for the same user, and a role key is never a year key. */
  lemma KeysDistinct(a: string, b: string)
    ensures RoleKey(a) == RoleKey(b) ==> a == b
    ensures YearKey(a) == YearKey(b) ==> a == b
    ensures RoleKey(a) != YearKey(b)
  {
    assert RoleKey(a)[0] == 'u' && YearKey(b)[0] == 'j';
    if RoleKey(a) == RoleKey(b) {
      assert a == RoleKey(a)[|RolePrefix|..] && b == RoleKey(b)[|RolePrefix|..];
    }
    if YearKey(a) == YearKey(b) {
      assert a == YearKey(a)[|YearPrefix|..] && b == YearKey(b)[|YearPrefix|..];
    }
  }

  /** The fetch for `id` touches no key other than `id`'s two keys. */
  lemma FetchTouchesOnlyOwnKeys(cache: map<string, string>, id: string, o: UserFetch, key: string)
    requires key != RoleKey(id) && key != YearKey(id)
    ensures key in CacheAfterFetch(cache, id, o) <==> key in cache
    ensures key in cache ==> CacheAfterFetch(cache, id, o)[key] == cache[key]
  {
  }

  /** Per-user isolation: another user's cached role and year survive the fetch. */
  lemma FetchIsolatesUsers(cache: map<string, string>, id: string, other: string, o: UserFetch)
    requires other != id
    ensures Cached(CacheAfterFetch(cache, id, o), RoleKey(other)) == Cached(cache, RoleKey(other))
    ensures Cached(CacheAfterFetch(cache, id, o), YearKey(other)) == Cached(cache, YearKey(other))
  {
    KeysDistinct(other, id);
    KeysDistinct(id, other);
    FetchTouchesOnlyOwnKeys(cache, id, o, RoleKey(other));
    FetchTouchesOnlyOwnKeys(cache, id, o, YearKey(other));
  }

  /**
   * State and cache agree after any fetch that did not throw: reading the
   * cache back as the next startup does gives exactly the new role and year,
   * because every value written is non-empty.
   */
  lemma FetchStateMatchesCache(cache: map<string, string>, id: string, o: UserFetch)
    requires !o.Threw?
    ensures Cached(CacheAfterFetch(cache, id, o), RoleKey(id)) == FetchedRole(o)
    ensures Cached(CacheAfterFetch(cache, id, o), YearKey(id)) == FetchedYear(o)
  {
    KeysDistinct(id, id);
    var year := FetchedYear(o);
    if year.Some? {
      assert |year.value| > 0;
    }
  }

  /** An exception clears both values but leaves the cache as it was. */
  lemma ThrowKeepsCache(cache: map<string, string>, id: string)
    ensures CacheAfterFetch(cache, id, Threw) == cache
    ensures FetchedRole(Threw) == None && FetchedYear(Threw) == None
  {
  }

  /** The two outcomes that mean "nothing to show" (a real error, or no row) both empty the state. */
  lemma NoRowClearsBoth(o: UserFetch)
    requires IsFetchError(o) || (o.Replied? && o.data.None?)
    ensures FetchedRole(o) == None && FetchedYear(o) == None
  {
  }

  /** A shown join year is the first four characters of `created_at`. */
  lemma YearIsPrefix(o: UserFetch)
    requires FetchedYear(o).Some?
    ensures o.Replied? && o.data.Some? && Truthy(o.data.value.createdAt)
    ensures var c := o.data.value.createdAt.value;
      |FetchedYear(o).value| == (if |c| < 4 then |c| else 4) && FetchedYear(o).value == c[..|FetchedYear(o).value|]
  {
  }

  /** The role line under the name: the role upper-cased, shown only for a non-empty role. */
  function RoleLabel(role: Option<string>): (r: Option<string>)
    ensures r.Some? <==> Truthy(role)
    ensures r.Some? ==> |r.value| == |role.value| && forall i :: 0 <= i < |r.value| ==> r.value[i] == UpperChar(role.value[i])
  {
    if Truthy(role) then Some(ToUpper(role.value)) else None
  }

  // ---------------------------------------------------------------------
  // The screen's state
  // ---------------------------------------------------------------------

  class ProfileScreen {
    var session: Option<Session>
    var user: Option<string>
    var loading: bool
    var userRole: Option<string>
    var joinYear: Option<string>
    /** The browser's local storage. */
    var cache: map<string, string>

    constructor(cache: map<string, string>)
      ensures session == None && user == None && loading
      ensures userRole == None && joinYear == None && this.cache == cache
    {
      session := None;
      user := None;
      loading := true;
      userRole := None;
      joinYear := None;
      this.cache := cache;
    }

    /** `fetchUserData(id)` once the query `o` has ended. */
    method FetchUserData(id: string, o: UserFetch)
      modifies this`userRole, this`joinYear, this`cache
      ensures userRole == FetchedRole(o) && joinYear == FetchedYear(o)
      ensures cache == CacheAfterFetch(old(cache), id, o)
      ensures !o.Threw? ==> Cached(cache, RoleKey(id)) == userRole && Cached(cache, YearKey(id)) == joinYear
      ensures forall k :: k != RoleKey(id) && k != YearKey(id) ==>
        (k in cache <==> k in old(cache)) && (k in cache ==> cache[k] == old(cache)[k])
    {
      if o.Threw? {
        userRole := None;
        joinYear := None;
        return;
      }
      if o.errorCode.Some? && o.errorCode.value != NoRowsCode {
        userRole := None;
        joinYear := None;
        cache := cache - {RoleKey(id)};
        cache := cache - {YearKey(id)};
        return;
      }
      if o.data.Some? {
        var row := o.data.value;
        var role := if Truthy(row.role) then row.role else None;
        userRole := role;
        if role.Some? {
          cache := cache[RoleKey(id) := role.value];
        } else {
          cache := cache - {RoleKey(id)};
        }
        if Truthy(row.createdAt) {
          var year := YearOf(row.createdAt.value);
          joinYear := Some(year);
          cache := cache[YearKey(id) := year];
        } else {
          joinYear := None;
          cache := cache - {YearKey(id)};
        }
      } else {
        userRole := None;
        joinYear := None;
        cache := cache - {RoleKey(id)};
        cache := cache - {YearKey(id)};
      }
      FetchStateMatchesCache(old(cache), id, o);
    }

    /**
     * `checkSession` up to the background refresh: with a signed-in user the
     * cached role and year are shown at once (the refresh is a later
     * `FetchUserData`); without a session everything is cleared.
     */
    method CheckSession(initial: Option<Session>)
      modifies this`session, this`user, this`userRole, this`joinYear, this`loading
      ensures !loading && session == initial
      ensures initial.Some? ==> user == initial.value.userId
      ensures initial.Some? && initial.value.userId.Some? ==>
        var id := initial.value.userId.value;
        && userRole == (if Cached(cache, RoleKey(id)).Some? then Cached(cache, RoleKey(id)) else old(userRole))
        && joinYear == (if Cached(cache, YearKey(id)).Some? then Cached(cache, YearKey(id)) else old(joinYear))
      ensures initial.Some? && initial.value.userId.None? ==> userRole == old(userRole) && joinYear == old(joinYear)
      ensures initial.None? ==> user == None && userRole == None && joinYear == None
    {
      if initial.Some? {
        session := initial;
        user := initial.value.userId;
        if user.Some? {
          var id := user.value;
          var cachedRole := Cached(cache, RoleKey(id));
          var cachedYear := Cached(cache, YearKey(id));
          if cachedRole.Some? {
            userRole := cachedRole;
          }
          if cachedYear.Some? {
            joinYear := cachedYear;
          }
        }
      } else {
        session := None;
        user := None;
        userRole := None;
        joinYear := None;
      }
      loading := false;
    }

    /** The auth listener: a new session with a user refreshes that user's data, otherwise both values are cleared. */
    method AuthStateChanged(newSession: Option<Session>, o: UserFetch)
      modifies this
      ensures !loading && session == newSession
      ensures user == (if newSession.Some? then newSession.value.userId else None)
      ensures user.Some? ==>
        userRole == FetchedRole(o) && joinYear == FetchedYear(o) && cache == CacheAfterFetch(old(cache), user.value, o)
      ensures user.None? ==> userRole == None && joinYear == None && cache == old(cache)
    {
      session := newSession;
      user := if newSession.Some? then newSession.value.userId else None;
      if user.Some? {
        FetchUserData(user.value, o);
      } else {
        userRole := None;
        joinYear := None;
      }
      loading := false;
    }

    /** `handleLogout`: the current user's two keys are removed, both values cleared. */
    method HandleLogout(currentUserId: Option<string>)
      modifies this`loading, this`cache, this`userRole, this`joinYear
      ensures !loading && userRole == None && joinYear == None
      ensures Truthy(currentUserId) ==>
        cache == old(cache) - {RoleKey(currentUserId.value), YearKey(currentUserId.value)}
      ensures !Truthy(currentUserId) ==> cache == old(cache)
    {
      loading := true;
      if Truthy(currentUserId) {
        cache := cache - {RoleKey(currentUserId.value)};
        cache := cache - {YearKey(currentUserId.value)};
      }
      loading := false;
      userRole := None;
      joinYear := None;
    }
  }

  /** A user's fetched role and year are what the next startup shows from the cache, before any refresh. */
  method FetchThenRestart(id: string, o: UserFetch, cache: map<string, string>) returns (role: Option<string>, year: Option<string>)
    requires !o.Threw?
    ensures role == FetchedRole(o) && year == FetchedYear(o)
  {
    var first := new ProfileScreen(cache);
    first.FetchUserData(id, o);
    var second := new ProfileScreen(first.cache);
    second.CheckSession(Some(Session(Some(id))));
    role, year := second.userRole, second.joinYear;
  }
}

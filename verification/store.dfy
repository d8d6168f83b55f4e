/**
 * The client-side session stores of src/store/useStore.ts: the end-user
 * store (`useStore`) and the independent admin store (`useAdminStore`),
 * plus the durable token storage that their logout actions clear.
 *
 * Each store is a class with one field per state key. `State()` gives the
 * store's value as a datatype, so that "this action changes only these
 * fields" reads as a datatype update of the old value.
 */
module Store {
  import opened Types

  /**
   * Presence of the two credential pairs (user and admin) in durable
   * storage. The API client module that owns them is not part of this
   * model; only "present" / "cleared" is tracked.
   */
  class TokenStorage {
    var userTokens: bool
    var adminTokens: bool

    constructor (userTokens: bool, adminTokens: bool)
      ensures this.userTokens == userTokens && this.adminTokens == adminTokens
    {
      this.userTokens := userTokens;
      this.adminTokens := adminTokens;
    }

    /** `clearTokens`: drops the user's access and refresh token together. */
    method ClearTokens()
      modifies this
      ensures !userTokens && adminTokens == old(adminTokens)
    {
      userTokens := false;
    }

    /** `clearAdminTokens`: drops the administrator's token pair together. */
    method ClearAdminTokens()
      modifies this
      ensures !adminTokens && userTokens == old(userTokens)
    {
      adminTokens := false;
    }
  }

  /** The value of the end-user store, one component per state key. */
  datatype AppState = AppState(
    user: Option<User>,
    isAuthenticated: bool,
    userStats: Option<UserStats>,
    rewards: seq<Reward>,
    language: Language,
    products: seq<Product>,
    bestSellingProducts: seq<Product>,
    distributors: seq<Distributor>,
    nearbyDistributors: seq<Distributor>,
    isLoading: bool,
    sidebarOpen: bool)

  /** The store's value before anything has been set or rehydrated. */
  function Initial(): AppState
  {
    AppState(None, false, None, [], En, [], [], [], [], false, true)
  }

  /** The session invariant: an authenticated session always has a user. */
  predicate Coherent(s: AppState)
  {
    s.isAuthenticated ==> s.user.Some?
  }

  /** The single multi-field update performed by `logout`. */
  function AfterLogout(s: AppState): AppState
  {
    s.(user := None, isAuthenticated := false, userStats := None, rewards := [])
  }

  /** What the persistence layer writes for the end-user store. */
  datatype Persisted = Persisted(user: Option<User>, isAuthenticated: bool, language: Language)

  /** `partialize`: the subset of the state that survives a reload. */
  function Partialize(s: AppState): Persisted
  {
    Persisted(s.user, s.isAuthenticated, s.language)
  }

  /**
   * Rehydration at start-up: the persisted keys are merged over the
   * initial state, every other key keeps its initial value.
   */
  function Rehydrate(p: Persisted): AppState
  {
    Initial().(user := p.user, isAuthenticated := p.isAuthenticated, language := p.language)
  }

  /** Writing a rehydrated state back out gives exactly what was read. */
  lemma PartializeRehydrate(p: Persisted)
    ensures Partialize(Rehydrate(p)) == p
  {
  }

  /**
   * A reload keeps user, authentication flag and language, and returns
   * every transient or cached key to its initial value.
   */
  lemma ReloadKeepsExactlyPersistedKeys(s: AppState)
    ensures Partialize(Rehydrate(Partialize(s))) == Partialize(s)
    ensures var r := Rehydrate(Partialize(s));
      && r.user == s.user && r.isAuthenticated == s.isAuthenticated && r.language == s.language
      && r.userStats == None && r.rewards == []
      && r.products == [] && r.bestSellingProducts == []
      && r.distributors == [] && r.nearbyDistributors == []
      && !r.isLoading && r.sidebarOpen
  {
  }

  /** Reloading twice is the same as reloading once. */
  lemma ReloadIdempotent(s: AppState)
    ensures Rehydrate(Partialize(Rehydrate(Partialize(s)))) == Rehydrate(Partialize(s))
  {
    PartializeRehydrate(Partialize(s));
  }

  /** The language choice outlives a reload while the loading flag resets. */
  lemma HindiSurvivesReload(s: AppState)
    requires s.language == Hi && s.isLoading && !s.sidebarOpen
    ensures Rehydrate(Partialize(s)).language == Hi
    ensures !Rehydrate(Partialize(s)).isLoading && Rehydrate(Partialize(s)).sidebarOpen
  {
  }

  /** `logout` twice leaves the same state as `logout` once. */
  lemma LogoutIdempotent(s: AppState)
    ensures AfterLogout(AfterLogout(s)) == AfterLogout(s)
  {
  }

  /**
   * `logout` clears exactly user, authentication flag, stats and rewards:
   * the result is coherent, and it agrees with the old state on every
   * other key.
   */
  lemma LogoutClearsSession(s: AppState)
    ensures Coherent(AfterLogout(s))
    ensures var r := AfterLogout(s);
      && r.user == None && !r.isAuthenticated && r.userStats == None && r.rewards == []
      && r.language == s.language && r.products == s.products
      && r.bestSellingProducts == s.bestSellingProducts
      && r.distributors == s.distributors && r.nearbyDistributors == s.nearbyDistributors
      && r.isLoading == s.isLoading && r.sidebarOpen == s.sidebarOpen
  {
  }

  /** A reload after logout gives a signed-out session in the same language. */
  lemma ReloadAfterLogout(s: AppState)
    ensures Rehydrate(Partialize(AfterLogout(s))) == Initial().(language := s.language)
  {
  }

  /** A coherent session is still coherent after a reload. */
  lemma RehydratePreservesCoherence(s: AppState)
    requires Coherent(s)
    ensures Coherent(Rehydrate(Partialize(s)))
  {
  }

  /** The end-user store (`useStore`). */
  class AppStore {
    var user: Option<User>
    var isAuthenticated: bool
    var userStats: Option<UserStats>
    var rewards: seq<Reward>
    var language: Language
    var products: seq<Product>
    var bestSellingProducts: seq<Product>
    var distributors: seq<Distributor>
    var nearbyDistributors: seq<Distributor>
    var isLoading: bool
    var sidebarOpen: bool
    /** Durable storage shared with the admin store and the API client. */
    const tokens: TokenStorage

    function State(): AppState
      reads this
    {
      AppState(user, isAuthenticated, userStats, rewards, language, products,
               bestSellingProducts, distributors, nearbyDistributors, isLoading, sidebarOpen)
    }

    /**
     * Creates the store at start-up; `saved` is what the persistence layer
     * finds in durable storage, if anything.
     */
    constructor (tokens: TokenStorage, saved: Option<Persisted>)
      ensures this.tokens == tokens
      ensures State() == if saved.Some? then Rehydrate(saved.value) else Initial()
      ensures saved.None? ==>
        user.None? && !isAuthenticated && rewards == [] && language == En && !isLoading && sidebarOpen
    {
      this.tokens := tokens;
      var s := if saved.Some? then Rehydrate(saved.value) else Initial();
      user, isAuthenticated, userStats, rewards := s.user, s.isAuthenticated, s.userStats, s.rewards;
      language, products, bestSellingProducts := s.language, s.products, s.bestSellingProducts;
      distributors, nearbyDistributors := s.distributors, s.nearbyDistributors;
      isLoading, sidebarOpen := s.isLoading, s.sidebarOpen;
    }

    method SetUser(u: Option<User>)
      modifies this
      ensures State() == old(State()).(user := u)
    {
      user := u;
    }

    method SetAuthenticated(b: bool)
      modifies this
      ensures State() == old(State()).(isAuthenticated := b)
    {
      isAuthenticated := b;
    }

    method SetUserStats(stats: UserStats)
      modifies this
      ensures State() == old(State()).(userStats := Some(stats))
    {
      userStats := Some(stats);
    }

    method SetRewards(rs: seq<Reward>)
      modifies this
      ensures State() == old(State()).(rewards := rs)
    {
      rewards := rs;
    }

    /** Prepends a newly won reward; the older rewards keep their order. */
    method AddReward(r: Reward)
      modifies this
      ensures State() == old(State()).(rewards := [r] + old(rewards))
      ensures |rewards| == |old(rewards)| + 1 && rewards[0] == r && rewards[1..] == old(rewards)
    {
      rewards := [r] + rewards;
    }

    method SetLanguage(l: Language)
      modifies this
      ensures State() == old(State()).(language := l)
    {
      language := l;
    }

    method SetProducts(ps: seq<Product>)
      modifies this
      ensures State() == old(State()).(products := ps)
    {
      products := ps;
    }

    method SetBestSellingProducts(ps: seq<Product>)
      modifies this
      ensures State() == old(State()).(bestSellingProducts := ps)
    {
      bestSellingProducts := ps;
    }

    method SetDistributors(ds: seq<Distributor>)
      modifies this
      ensures State() == old(State()).(distributors := ds)
    {
      distributors := ds;
    }

    method SetNearbyDistributors(ds: seq<Distributor>)
      modifies this
      ensures State() == old(State()).(nearbyDistributors := ds)
    {
      nearbyDistributors := ds;
    }

    method SetLoading(b: bool)
      modifies this
      ensures State() == old(State()).(isLoading := b)
    {
      isLoading := b;
    }

    method SetSidebarOpen(b: bool)
      modifies this
      ensures State() == old(State()).(sidebarOpen := b)
    {
      sidebarOpen := b;
    }

    /**
     * Clears the user's tokens, then resets user, authentication flag,
     * stats and rewards in one update. The admin tokens are untouched.
     */
    method Logout()
      modifies this, tokens
      ensures State() == AfterLogout(old(State()))
      ensures Coherent(State())
      ensures !tokens.userTokens && tokens.adminTokens == old(tokens.adminTokens)
    {
      tokens.ClearTokens();
      user, isAuthenticated, userStats, rewards := None, false, None, [];
    }
  }

  /** The value of the admin store. */
  datatype AdminState = AdminState(admin: Option<Admin>, isAdminAuthenticated: bool)

  /** The admin store (`useAdminStore`), persisted whole: it has no `partialize`. */
  class AdminStore {
    var admin: Option<Admin>
    var isAdminAuthenticated: bool
    const tokens: TokenStorage

    function State(): AdminState
      reads this
    {
      AdminState(admin, isAdminAuthenticated)
    }

    /** Start-up: a saved admin record is restored in full. */
    constructor (tokens: TokenStorage, saved: Option<AdminState>)
      ensures this.tokens == tokens
      ensures State() == if saved.Some? then saved.value else AdminState(None, false)
    {
      this.tokens := tokens;
      if saved.Some? {
        admin, isAdminAuthenticated := saved.value.admin, saved.value.isAdminAuthenticated;
      } else {
        admin, isAdminAuthenticated := None, false;
      }
    }

    method SetAdmin(a: Option<Admin>)
      modifies this
      ensures State() == old(State()).(admin := a)
    {
      admin := a;
    }

    method SetAdminAuthenticated(b: bool)
      modifies this
      ensures State() == old(State()).(isAdminAuthenticated := b)
    {
      isAdminAuthenticated := b;
    }

    /** Clears the admin tokens and the admin identity; user tokens stay. */
    method AdminLogout()
      modifies this, tokens
      ensures State() == AdminState(None, false)
      ensures !tokens.adminTokens && tokens.userTokens == old(tokens.userTokens)
    {
      tokens.ClearAdminTokens();
      admin, isAdminAuthenticated := None, false;
    }
  }

  /**
   * The two stores share nothing but durable storage: an admin logout
   * leaves the end-user session and the user's tokens as they were.
   */
  method AdminLogoutKeepsUserSession(app: AppStore, adm: AdminStore)
    requires app.tokens == adm.tokens
    modifies adm, adm.tokens
    ensures adm.State() == AdminState(None, false) && !adm.tokens.adminTokens
    ensures app.State() == old(app.State()) && app.tokens.userTokens == old(app.tokens.userTokens)
  {
    adm.AdminLogout();
  }

  /** Symmetrically, a user logout leaves the admin session and tokens alone. */
  method LogoutKeepsAdminSession(app: AppStore, adm: AdminStore)
    requires app.tokens == adm.tokens
    modifies app, app.tokens
    ensures app.State() == AfterLogout(old(app.State())) && !app.tokens.userTokens
    ensures adm.State() == old(adm.State()) && adm.tokens.adminTokens == old(adm.tokens.adminTokens)
  {
    app.Logout();
  }

  /** Two logouts in a row leave the same session and tokens as one. */
  method LogoutTwice(app: AppStore)
    modifies app, app.tokens
    ensures app.State() == AfterLogout(old(app.State()))
    ensures !app.tokens.userTokens && app.tokens.adminTokens == old(app.tokens.adminTokens)
  {
    app.Logout();
    app.Logout();
    LogoutIdempotent(old(app.State()));
  }
}

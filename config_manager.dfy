/**
 * The configuration lifecycle manager (two cached documents, their load
 * barriers and change events) and the connection supervisor that turns
 * pairing changes into a connect or kill decision.
 */
module ConfigManager {
  import opened Wrappers
  import opened Configs

  const PairConfigKey := "pairconfig"
  const WalletConfigKey := "walletconfig"

  /** What the configuration store holds under a key. */
  datatype Document = PairDocument(pair: PairConfig) | WalletDocument(wallet: WalletConfig)

  /** What the manager does that others can observe, in order. */
  datatype Effect =
    | Persisted(key: string, doc: Option<Document>)          // a write to the store (None: null)
    | PairConfigUpdated(pair: Option<PairConfig>)            // the pairing event fired with this value
    | WalletConfigUpdated(wallet: Option<WalletConfig>)      // the wallet event fired with this value
    | PairLoadSignalled                                      // `_pairConfigLoaded` completed
    | WalletLoadSignalled                                    // `_walletConfigLoaded` completed
    | LoadedSignalled                                        // `Loaded` completed

  /** A handler attached to the pairing event. */
  datatype Subscriber = ConnectionSupervisor | OtherSubscriber(name: string)

  /** The session call the connection supervisor makes. */
  datatype SessionAction = StartOrReplace | Kill

  datatype ConfigError = PersistFailed

  /** Get<BTCPayPairConfig>("pairconfig"): the stored document, or null. */
  function ReadPair(store: map<string, Document>): (r: Option<PairConfig>)
    ensures r.Some? <==> PairConfigKey in store && store[PairConfigKey].PairDocument?
    ensures r.Some? ==> r.value == store[PairConfigKey].pair
  {
    if PairConfigKey in store && store[PairConfigKey].PairDocument? then Some(store[PairConfigKey].pair) else None
  }

  /** Get<WalletConfig>("walletconfig"): the stored document, or null. */
  function ReadWallet(store: map<string, Document>): (r: Option<WalletConfig>)
    ensures r.Some? <==> WalletConfigKey in store && store[WalletConfigKey].WalletDocument?
    ensures r.Some? ==> r.value == store[WalletConfigKey].wallet
  {
    if WalletConfigKey in store && store[WalletConfigKey].WalletDocument? then Some(store[WalletConfigKey].wallet) else None
  }

  /** The store's Set: a null value deletes the key, any other value replaces it. */
  function Put(store: map<string, Document>, key: string, doc: Option<Document>): (r: map<string, Document>)
    ensures doc.None? ==> key !in r && r.Keys == store.Keys - {key}
    ensures doc.Some? ==> key in r && r[key] == doc.value && r.Keys == store.Keys + {key}
    ensures forall k :: k in store && k != key ==> k in r && r[k] == store[k]
  {
    if doc.None? then store - {key} else store[key := doc.value]
  }

  /** C# `==` on two nullable values whose type defines equality as `eq`. */
  function SameConfig<T>(a: Option<T>, b: Option<T>, eq: (T, T) -> bool): (r: bool)
    ensures a.None? && b.None? ==> r
    ensures a.None? != b.None? ==> !r
    ensures a.Some? && b.Some? ==> (r <==> eq(a.value, b.value))
  {
    match (a, b)
    case (None, None) => true
    case (Some(x), Some(y)) => eq(x, y)
    case _ => false
  }

  function Occurrences(effects: seq<Effect>, e: Effect): (n: nat)
    ensures n <= |effects|
  {
    if effects == [] then 0
    else (if effects[0] == e then 1 else 0) + Occurrences(effects[1..], e)
  }

  /** An effect is counted zero times exactly when it is absent. */
  lemma {:induction false} OccurrencesAbsent(effects: seq<Effect>, e: Effect)
    ensures Occurrences(effects, e) == 0 <==> e !in effects
  {
    if effects != [] {
      OccurrencesAbsent(effects[1..], e);
      assert effects == [effects[0]] + effects[1..];
    }
  }

  lemma {:induction false} OccurrencesAppend(a: seq<Effect>, b: seq<Effect>, e: Effect)
    ensures Occurrences(a + b, e) == Occurrences(a, e) + Occurrences(b, e)
  {
    if a == [] {
      assert a + b == b;
    } else {
      assert (a + b)[0] == a[0] && (a + b)[1..] == a[1..] + b;
      OccurrencesAppend(a[1..], b, e);
    }
  }

  /**
   * OnPairConfigUpdated: connect when the configuration, its instance URI and its
   * pairing key are all present; kill the session in every other case.
   */
  function Decide(e: Option<PairConfig>): (action: SessionAction)
    ensures action == StartOrReplace <==>
              e.Some? && e.value.pairingInstanceUri.Some? && e.value.pairingResult.key.Some?
    ensures action == Kill <==>
              e.None? || e.value.pairingInstanceUri.None? || e.value.pairingResult.key.None?
  {
    if e.Some? && e.value.pairingInstanceUri.Some? && e.value.pairingResult.key.Some? then StartOrReplace else Kill
  }

  /** Clearing either field of a connected pairing turns the decision into a kill. */
  lemma ClearingPairingKills(c: PairConfig)
    requires Decide(Some(c)) == StartOrReplace
    ensures Decide(Some(c.(pairingInstanceUri := None))) == Kill
    ensures Decide(Some(c.(pairingResult := PairingResult(None)))) == Kill
    ensures Decide(None) == Kill
  {
  }

  /** The position of the last occurrence of h. */
  function LastIndex(handlers: seq<Subscriber>, h: Subscriber): (i: nat)
    requires h in handlers
    ensures i < |handlers| && handlers[i] == h && h !in handlers[i + 1..]
  {
    var last := |handlers| - 1;
    if handlers[last] == h then
      assert handlers[last + 1..] == [];
      last
    else
      assert handlers == handlers[..last] + [handlers[last]];
      var i := LastIndex(handlers[..last], h);
      assert handlers[i + 1..] == handlers[..last][i + 1..] + [handlers[last]];
      i
  }

  /** `handler -= h`: a delegate removal drops the last occurrence of h, if any, keeping the others in order. */
  function RemoveLast(handlers: seq<Subscriber>, h: Subscriber): (r: seq<Subscriber>)
    ensures h !in handlers ==> r == handlers
    ensures h in handlers ==> |r| == |handlers| - 1
    ensures h in handlers ==>
              exists i :: 0 <= i < |handlers| && handlers[i] == h && h !in handlers[i + 1..]
                          && r == handlers[..i] + handlers[i + 1..]
    ensures multiset(r) == multiset(handlers) - multiset{h}
  {
    if h !in handlers then handlers
    else
      var i := LastIndex(handlers, h);
      assert handlers == handlers[..i] + [h] + handlers[i + 1..];
      handlers[..i] + handlers[i + 1..]
  }

  /**
   * The session calls one firing of the pairing event makes: every connection
   * supervisor attached to it runs its handler once, in invocation order.
   */
  function Dispatch(handlers: seq<Subscriber>, e: Option<PairConfig>): (calls: seq<SessionAction>)
    ensures |calls| == multiset(handlers)[ConnectionSupervisor]
  {
    if handlers == [] then []
    else
      var init := handlers[..|handlers| - 1];
      assert handlers == init + [handlers[|handlers| - 1]];
      Dispatch(init, e) + (if handlers[|handlers| - 1] == ConnectionSupervisor then [Decide(e)] else [])
  }

  /** One call per attached supervisor, each of them the supervisor's decision on the event's value. */
  lemma {:induction false} DispatchCalls(handlers: seq<Subscriber>, e: Option<PairConfig>)
    ensures |Dispatch(handlers, e)| == multiset(handlers)[ConnectionSupervisor]
    ensures forall i :: 0 <= i < |Dispatch(handlers, e)| ==> Dispatch(handlers, e)[i] == Decide(e)
  {
    if handlers != [] {
      var init := handlers[..|handlers| - 1];
      assert handlers == init + [handlers[|handlers| - 1]];
      DispatchCalls(init, e);
    }
  }

  /** A supervisor attached last makes one more call, its own decision, after the earlier handlers' calls. */
  lemma SubscribedSupervisorDecides(handlers: seq<Subscriber>, e: Option<PairConfig>)
    ensures Dispatch(handlers + [ConnectionSupervisor], e) == Dispatch(handlers, e) + [Decide(e)]
  {
    assert (handlers + [ConnectionSupervisor])[..|handlers|] == handlers;
  }

  /** Unsubscribing right after subscribing restores the handler list. */
  lemma UnsubscribeUndoesSubscribe(handlers: seq<Subscriber>, h: Subscriber)
    ensures RemoveLast(handlers + [h], h) == handlers
  {
    assert (handlers + [h])[..|handlers|] == handlers;
  }

  class AppConfigManager {
    /** The equality `==` uses on each document type. */
    const pairEquals: (PairConfig, PairConfig) -> bool
    const walletEquals: (WalletConfig, WalletConfig) -> bool
    /** The configuration store's contents. */
    var store: map<string, Document>
    /** `PairConfig` and `WalletConfig`: the cached documents. */
    var pairConfig: Option<PairConfig>
    var walletConfig: Option<WalletConfig>
    /** `_pairConfigLoaded`, `_walletConfigLoaded` and `Loaded` completed. */
    var pairLoaded: bool
    var walletLoaded: bool
    var loaded: bool
    var effects: seq<Effect>
    /** The handlers attached to `PairConfigUpdated`, in invocation order. */
    var pairHandlers: seq<Subscriber>
    /** The session calls the pairing event's handlers made, in order (`Kill` and `StartOrReplace` have empty bodies). */
    var sessionCalls: seq<SessionAction>

    /**
     * Each signal completes at most once, and `Loaded` is completed only once both loads
     * are; that its signal comes after theirs in `effects` is AwaitLoaded's promise.
     */
    ghost predicate Valid()
      reads this
    {
      && (loaded ==> pairLoaded && walletLoaded)
      && Occurrences(effects, PairLoadSignalled) == (if pairLoaded then 1 else 0)
      && Occurrences(effects, WalletLoadSignalled) == (if walletLoaded then 1 else 0)
      && Occurrences(effects, LoadedSignalled) == (if loaded then 1 else 0)
    }

    constructor (pairEquals: (PairConfig, PairConfig) -> bool,
                 walletEquals: (WalletConfig, WalletConfig) -> bool,
                 store: map<string, Document>)
      ensures Valid()
      ensures this.pairEquals == pairEquals && this.walletEquals == walletEquals && this.store == store
      ensures pairConfig == None && walletConfig == None
      ensures !pairLoaded && !walletLoaded && !loaded
      ensures effects == [] && pairHandlers == [] && sessionCalls == []
    {
      this.pairEquals := pairEquals;
      this.walletEquals := walletEquals;
      this.store := store;
      pairConfig, walletConfig := None, None;
      pairLoaded, walletLoaded, loaded := false, false, false;
      effects, pairHandlers, sessionCalls := [], [], [];
    }

    /** Appends one effect, keeping the counts of Valid() in step with the flags. */
    method Emit(e: Effect)
      modifies this`effects
      ensures effects == old(effects) + [e]
      ensures forall x :: Occurrences(effects, x) == Occurrences(old(effects), x) + (if x == e then 1 else 0)
    {
      forall x
        ensures Occurrences(effects + [e], x) == Occurrences(effects, x) + (if x == e then 1 else 0)
      {
        OccurrencesAppend(effects, [e], x);
        assert [e][1..] == [];
      }
      effects := effects + [e];
    }

    /** LoadPairConfig: read, assign the cache (possibly null), fire the event, then complete the load signal. */
    method LoadPairConfig()
      requires Valid()
      modifies this`pairConfig, this`pairLoaded, this`effects, this`sessionCalls
      ensures Valid()
      ensures pairConfig == ReadPair(store) && pairLoaded
      ensures effects == old(effects) + [PairConfigUpdated(pairConfig)]
                         + (if old(pairLoaded) then [] else [PairLoadSignalled])
      ensures sessionCalls == old(sessionCalls) + Dispatch(pairHandlers, pairConfig)
    {
      pairConfig := ReadPair(store);
      Emit(PairConfigUpdated(pairConfig));
      sessionCalls := sessionCalls + Dispatch(pairHandlers, pairConfig);
      if !pairLoaded {
        Emit(PairLoadSignalled);
        pairLoaded := true;
      }
    }

    /** LoadWalletConfig: the same for the wallet document. */
    method LoadWalletConfig()
      requires Valid()
      modifies this`walletConfig, this`walletLoaded, this`effects
      ensures Valid()
      ensures walletConfig == ReadWallet(store) && walletLoaded
      ensures effects == old(effects) + [WalletConfigUpdated(walletConfig)]
                         + (if old(walletLoaded) then [] else [WalletLoadSignalled])
      ensures pairConfig == old(pairConfig) && sessionCalls == old(sessionCalls) && pairLoaded == old(pairLoaded)
    {
      walletConfig := ReadWallet(store);
      Emit(WalletConfigUpdated(walletConfig));
      if !walletLoaded {
        Emit(WalletLoadSignalled);
        walletLoaded := true;
      }
    }

    /**
     * The background waiter: it gets past WhenAll only once both load signals are
     * complete, and then completes `Loaded` (TrySetResult: a no-op the second time).
     */
    method AwaitLoaded() returns (proceeded: bool)
      requires Valid()
      modifies this`loaded, this`effects
      ensures Valid()
      ensures proceeded <==> pairLoaded && walletLoaded
      ensures loaded == (old(loaded) || proceeded)
      ensures effects == old(effects) + (if proceeded && !old(loaded) then [LoadedSignalled] else [])
      ensures effects != old(effects) ==> PairLoadSignalled in old(effects) && WalletLoadSignalled in old(effects)
      ensures pairConfig == old(pairConfig) && walletConfig == old(walletConfig) && sessionCalls == old(sessionCalls)
    {
      proceeded := pairLoaded && walletLoaded;
      if proceeded && !loaded {
        OccurrencesAbsent(effects, PairLoadSignalled);
        OccurrencesAbsent(effects, WalletLoadSignalled);
        Emit(LoadedSignalled);
        loaded := true;
      }
    }

    /**
     * StartAsync, run to completion with the two loads and then the waiter: `Loaded`
     * ends up completed whatever the store holds, null documents included.
     */
    method StartAsync()
      requires Valid()
      modifies this`pairConfig, this`walletConfig, this`pairLoaded, this`walletLoaded, this`loaded, this`effects,
               this`sessionCalls
      ensures Valid()
      ensures pairConfig == ReadPair(store) && walletConfig == ReadWallet(store)
      ensures pairLoaded && walletLoaded && loaded
      ensures sessionCalls == old(sessionCalls) + Dispatch(pairHandlers, pairConfig)
    {
      LoadPairConfig();
      LoadWalletConfig();
      var _ := AwaitLoaded();
    }

    /**
     * UpdateConfig for the pairing document: nothing when equal to the cache;
     * otherwise persist (a failing write throws before anything else changes),
     * then assign the cache, then fire the event with the new value.
     */
    method UpdatePairConfig(config: Option<PairConfig>, persistOk: bool) returns (r: Outcome<ConfigError>)
      requires Valid()
      modifies this`store, this`pairConfig, this`effects, this`sessionCalls
      ensures Valid()
      ensures SameConfig(config, old(pairConfig), pairEquals) ==>
                && r == Pass && store == old(store) && pairConfig == old(pairConfig) && effects == old(effects)
                && sessionCalls == old(sessionCalls)
      ensures !SameConfig(config, old(pairConfig), pairEquals) && !persistOk ==>
                && r == Fail(PersistFailed) && store == old(store) && pairConfig == old(pairConfig)
                && effects == old(effects) && sessionCalls == old(sessionCalls)
      ensures !SameConfig(config, old(pairConfig), pairEquals) && persistOk ==>
                var doc := if config.Some? then Some(PairDocument(config.value)) else None;
                && r == Pass
                && store == Put(old(store), PairConfigKey, doc)
                && pairConfig == config
                && effects == old(effects) + [Persisted(PairConfigKey, doc), PairConfigUpdated(config)]
                && sessionCalls == old(sessionCalls) + Dispatch(pairHandlers, config)
    {
      if SameConfig(config, pairConfig, pairEquals) {
        return Pass;
      }
      if !persistOk {
        return Fail(PersistFailed);
      }
      CommitPair(config);
      r := Pass;
    }

    /** The write, cache assignment and event of a pairing update that differs from the cache. */
    method CommitPair(config: Option<PairConfig>)
      requires Valid()
      modifies this`store, this`pairConfig, this`effects, this`sessionCalls
      ensures Valid()
      ensures var doc := if config.Some? then Some(PairDocument(config.value)) else None;
              && store == Put(old(store), PairConfigKey, doc)
              && pairConfig == config
              && effects == old(effects) + [Persisted(PairConfigKey, doc), PairConfigUpdated(config)]
              && sessionCalls == old(sessionCalls) + Dispatch(pairHandlers, config)
    {
      var doc := if config.Some? then Some(PairDocument(config.value)) else None;
      store := Put(store, PairConfigKey, doc);
      Emit(Persisted(PairConfigKey, doc));
      pairConfig := config;
      Emit(PairConfigUpdated(pairConfig));
      sessionCalls := sessionCalls + Dispatch(pairHandlers, pairConfig);
    }

    /** UpdateConfig for the wallet document: the same, under "walletconfig". */
    method UpdateWalletConfig(config: Option<WalletConfig>, persistOk: bool) returns (r: Outcome<ConfigError>)
      requires Valid()
      modifies this`store, this`walletConfig, this`effects
      ensures Valid()
      ensures SameConfig(config, old(walletConfig), walletEquals) ==>
                r == Pass && store == old(store) && walletConfig == old(walletConfig) && effects == old(effects)
      ensures !SameConfig(config, old(walletConfig), walletEquals) && !persistOk ==>
                r == Fail(PersistFailed) && store == old(store) && walletConfig == old(walletConfig) && effects == old(effects)
      ensures !SameConfig(config, old(walletConfig), walletEquals) && persistOk ==>
                var doc := if config.Some? then Some(WalletDocument(config.value)) else None;
                && r == Pass
                && store == Put(old(store), WalletConfigKey, doc)
                && walletConfig == config
                && effects == old(effects) + [Persisted(WalletConfigKey, doc), WalletConfigUpdated(config)]
    {
      if SameConfig(config, walletConfig, walletEquals) {
        return Pass;
      }
      if !persistOk {
        return Fail(PersistFailed);
      }
      var doc := if config.Some? then Some(WalletDocument(config.value)) else None;
      store := Put(store, WalletConfigKey, doc);
      Emit(Persisted(WalletConfigKey, doc));
      walletConfig := config;
      Emit(WalletConfigUpdated(walletConfig));
      r := Pass;
    }

    /** StopAsync changes nothing. */
    method StopAsync()
      ensures unchanged(this)
    {
    }
  }

  /** Updating the pairing twice with the same value persists and fires once, when its equality is reflexive on it. */
  method RepeatedPairUpdate(m: AppConfigManager, config: PairConfig)
    returns (first: Outcome<ConfigError>, second: Outcome<ConfigError>)
    requires m.Valid() && m.pairEquals(config, config)
    modifies m
    ensures m.Valid()
    ensures second == Pass
    ensures m.effects == old(m.effects) ||
            m.effects == old(m.effects) + [Persisted(PairConfigKey, Some(PairDocument(config))), PairConfigUpdated(Some(config))]
  {
    first := m.UpdatePairConfig(Some(config), true);
    second := m.UpdatePairConfig(Some(config), true);
  }

  class BtcPayConnection {
    const manager: AppConfigManager

    constructor (manager: AppConfigManager)
      ensures this.manager == manager
    {
      this.manager := manager;
    }

    /** StartAsync: attach the handler to the pairing event. */
    method StartAsync()
      modifies manager`pairHandlers
      ensures manager.pairHandlers == old(manager.pairHandlers) + [ConnectionSupervisor]
    {
      manager.pairHandlers := manager.pairHandlers + [ConnectionSupervisor];
    }

    /** StopAsync: detach it. */
    method StopAsync()
      modifies manager`pairHandlers
      ensures manager.pairHandlers == RemoveLast(old(manager.pairHandlers), ConnectionSupervisor)
    {
      manager.pairHandlers := RemoveLast(manager.pairHandlers, ConnectionSupervisor);
    }

    /** The handler: exactly one of StartOrReplace and Kill runs per notification. */
    method OnPairConfigUpdated(e: Option<PairConfig>)
      modifies manager`sessionCalls
      ensures manager.sessionCalls == old(manager.sessionCalls) + [Decide(e)]
    {
      manager.sessionCalls := manager.sessionCalls + [Decide(e)];
    }
  }

  /**
   * With only the supervisor subscribed, a pairing update that clears the pairing
   * key reaches its handler, which kills the session.
   */
  method ClearedPairingKillsSession(conn: BtcPayConnection, c: PairConfig)
    requires conn.manager.Valid() && conn.manager.pairHandlers == []
    requires c.pairingResult.key.None?
    requires !SameConfig(Some(c), conn.manager.pairConfig, conn.manager.pairEquals)
    modifies conn.manager
    ensures conn.manager.sessionCalls == old(conn.manager.sessionCalls) + [Kill]
  {
    conn.StartAsync();
    var _ := conn.manager.UpdatePairConfig(Some(c), true);
    SubscribedSupervisorDecides([], Some(c));
    assert [] + [ConnectionSupervisor] == [ConnectionSupervisor];
  }
}

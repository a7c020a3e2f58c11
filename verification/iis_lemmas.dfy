/** Properties of the current IIS plugin's operations. */
module IisProperties {
  import opened Wrappers
  import opened Paths
  import opened Host
  import opened Iis

  /** Without the named site, configure fails with SiteNotFound and touches
      nothing: no lookup, no directory check, no Add, no commit. */
  lemma ConfigureNeedsSite(s: HostState, config: IisConfig, root: string, dirs: set<string>)
    requires config.site !in s.sites
    ensures Configured(s, config, root, dirs) == Step(Err(SiteNotFound(config.site)), s)
  {
  }

  /** An application already at the lookup key Combine("/", name) is
      returned as it is, and the host is left exactly as it was. */
  lemma ConfigureExistingIsNoOp(s: HostState, config: IisConfig, root: string, dirs: set<string>)
    requires config.site in s.sites && ApplicationKey(config) in s.sites[config.site]
    ensures Configured(s, config, root, dirs) == Step(Ok(s.sites[config.site][ApplicationKey(config)]), s)
  {
  }

  /** A missing physical directory fails configure before any Add or commit. */
  lemma ConfigureNeedsDirectory(s: HostState, config: IisConfig, root: string, dirs: set<string>)
    requires config.site in s.sites && ApplicationKey(config) !in s.sites[config.site]
    requires Combine(root, config.path) !in dirs
    ensures Configured(s, config, root, dirs) == Step(Err(DirectoryNotFound(config.path)), s)
  {
  }

  /** Creating an application the site does not have yet, in a directory
      that exists, adds it at "/" + name under the pool named after it, adds
      that pool if it is missing, and commits once. */
  lemma CreatesAt(s: HostState, config: IisConfig, site: string, root: string, dirs: set<string>)
    requires site in s.sites && "/" + config.name !in s.sites[site]
    requires Combine(root, config.path) in dirs
    ensures var app := App(config.name, Combine(root, config.path));
            var apps := s.sites[site]["/" + config.name := app];
            CreatedApplication(s, config, site, root, dirs)
              == Step(Ok(app), s.(sites := s.sites[site := apps], pools := s.pools + {config.name}, commits := s.commits + 1))
  {
    var key, appPath := "/" + config.name, Combine(root, config.path);
    var app := App(config.name, appPath);
    var apps := s.sites[site][key := app];
    assert GetPhysicalApplicationPath(root, config) == appPath;
    var added := AddApplicationStep(s, site, key, appPath);
    assert added.result.Ok?;
    var pooled := if config.name in added.state.pools then added.state else AddPoolStep(added.state, config.name).state;
    assert pooled == added.state.(pools := s.pools + {config.name});
    assert added.state.sites[site][key := app] == apps;
    var bound := SetPoolState(pooled, site, key, config.name);
    assert bound.sites == s.sites[site := apps];
  }

  /** A successful creation adds exactly one application, at "/" + name, with
      the combined physical path and the pool named after it; the pool set
      gains that name (and nothing else); exactly one commit happens; nothing
      else changes. */
  lemma ConfigureCreates(s: HostState, config: IisConfig, root: string, dirs: set<string>)
    requires config.site in s.sites && ApplicationKey(config) !in s.sites[config.site]
    requires "/" + config.name !in s.sites[config.site]
    requires Combine(root, config.path) in dirs
    ensures var app := App(config.name, Combine(root, config.path));
            var apps := s.sites[config.site]["/" + config.name := app];
            Configured(s, config, root, dirs)
              == Step(Ok(app), s.(sites := s.sites[config.site := apps], pools := s.pools + {config.name}, commits := s.commits + 1))
  {
    assert GetLocalWebSite(s.sites, config) == Ok(config.site);
    assert FindApplication(s.sites[config.site], config) == None;
    CreatesAt(s, config, config.site, root, dirs);
  }

  /** An existing pool named after the application is reused and none is
      added; otherwise exactly one pool, with that name, is added. Either way
      the new application runs under a pool of that name that exists. */
  lemma ConfigureReusesPool(s: HostState, config: IisConfig, root: string, dirs: set<string>)
    requires config.site in s.sites && ApplicationKey(config) !in s.sites[config.site]
    requires "/" + config.name !in s.sites[config.site]
    requires Combine(root, config.path) in dirs
    ensures var o := Configured(s, config, root, dirs);
            && o.result.Ok? && o.result.value.pool == config.name && config.name in o.state.pools
            && (config.name in s.pools ==> o.state.pools == s.pools)
            && (config.name !in s.pools ==> o.state.pools - s.pools == {config.name})
  {
    ConfigureCreates(s, config, root, dirs);
  }

  /** For a name that is not rooted, running configure again after a
      successful run changes nothing and returns the same application. */
  lemma ConfigureIsIdempotent(s: HostState, config: IisConfig, root: string, dirs: set<string>)
    requires !IsRooted(config.name)
    requires Configured(s, config, root, dirs).result.Ok?
    ensures var o := Configured(s, config, root, dirs);
            Configured(o.state, config, root, dirs) == o
  {
    var o := Configured(s, config, root, dirs);
    RootJoin(config.name);
    ConfigureExistingIsNoOp(o.state, config, root, dirs);
  }

  /** For a rooted name the lookup key (the name itself) is not where the
      application is created ("/" + name), so after a run that created the
      application a second run misses it, Adds it again and is refused,
      changing nothing. */
  lemma ConfigureRootedNameRepeatsAdd(s: HostState, config: IisConfig, root: string, dirs: set<string>)
    requires IsRooted(config.name)
    requires config.site in s.sites && config.name !in s.sites[config.site]
    requires Configured(s, config, root, dirs).result.Ok?
    ensures var o := Configured(s, config, root, dirs);
            Configured(o.state, config, root, dirs) == Step(Err(DuplicateEntry("/" + config.name)), o.state)
  {
    RootedJoin(config.name);
    ConfigureCreates(s, config, root, dirs);
  }

  /** Configure never leaves an application bound to a missing pool. */
  lemma ConfigureKeepsPoolsBound(s: HostState, config: IisConfig, root: string, dirs: set<string>)
    requires PoolsBound(s)
    ensures PoolsBound(Configured(s, config, root, dirs).state)
  {
    var o := Configured(s, config, root, dirs);
    if config.site in s.sites && ApplicationKey(config) !in s.sites[config.site]
       && "/" + config.name !in s.sites[config.site] && Combine(root, config.path) in dirs {
      ConfigureCreates(s, config, root, dirs);
      forall site, path | site in o.state.sites && path in o.state.sites[site]
        ensures o.state.sites[site][path].pool in o.state.pools
      {
        if site != config.site || path != "/" + config.name {
          assert o.state.sites[site][path] == s.sites[site][path];
        }
      }
    }
  }

  /** Recycle needs the site and an existing application, at the lookup key,
      with an existing pool; then it recycles exactly that application's pool,
      once. It never adds an application or a pool and never commits. */
  lemma RecycleTargetsApplicationPool(s: HostState, config: IisConfig)
    ensures var o := Recycled(s, config);
            var key := ApplicationKey(config);
            && (config.site !in s.sites ==> o == Step(Err(SiteNotFound(config.site)), s))
            && (config.site in s.sites && key !in s.sites[config.site] ==> o == Step(Err(NullReference), s))
            && (o.result.Ok? <==> config.site in s.sites && key in s.sites[config.site]
                                  && s.sites[config.site][key].pool in s.pools)
            && (o.result.Ok? ==> o.state == s.(recycled := s.recycled + [s.sites[config.site][key].pool]))
  {
  }

  /** Stop is sent first. Start is sent exactly when the stop was accepted
      (the service was running), and then after the stop wait, which gets
      the whole budget; a refused Stop ends the restart with
      ServiceNotActive. */
  lemma RestartStopsBeforeStart(running: set<string>, dependents: set<string>, stopTick: int, startTick: int)
    ensures var c := Restarted(running, dependents, stopTick, startTick).calls;
            && |c| > 0 && c[0] == Stop(IisServiceName)
            && (forall i, j | 0 <= i < |c| && 0 <= j < |c| && c[i].Stop? && c[j].Start? :: i < j)
            && ((exists j | 0 <= j < |c| :: c[j].Start?) <==> IisServiceName in running)
            && (IisServiceName in running ==> c[1] == WaitForStatus(IisServiceName, Stopped, TimeOutMs) && c[2] == Start(IisServiceName))
  {
    var c := Restarted(running, dependents, stopTick, startTick).calls;
    if IisServiceName in running {
      assert c[2].Start?;
    }
  }

  /** The two waits share one budget: the stop wait gets all of it and the
      start wait what the stop phase left, so the elapsed stop phase plus the
      start wait is exactly the budget. */
  lemma RestartSharesBudget(running: set<string>, dependents: set<string>, stopTick: int, startTick: int)
    requires IisServiceName in running
    ensures var c := Restarted(running, dependents, stopTick, startTick).calls;
            && |c| == 4
            && c[1].timeoutMs == TimeOutMs
            && (startTick - stopTick) + c[3].timeoutMs == TimeOutMs
            && (c[3].timeoutMs < 0 <==> startTick - stopTick > TimeOutMs)
  {
  }
}

/**
 * The older IIS plugin. Whatever the subcommand, Execute adds an application
 * at "/" + name under the site's root directory, adds a fresh pool named
 * after it, binds the two and commits once; it never looks for an existing
 * application or pool, so it is not idempotent.
 */
module IisLegacy {
  import opened Paths
  import opened Host

  datatype IisConfig = IisConfig(clrVersion: string, site: string, port: int, path: string, name: string)

  /** The new application's directory: the configured path under the
      physical path of the site's root application's root virtual directory,
      or the configured path itself when it is rooted. A site without a root
      application is a null dereference. */
  function GetPhysicalApplicationPath(config: IisConfig, apps: map<string, App>): (r: Result<string>)
    ensures r.Ok? <==> "/" in apps
    ensures r.Err? ==> r.error == NullReference
    ensures r.Ok? && !IsRooted(config.path) ==> apps["/"].physicalPath <= r.value
    ensures r.Ok? && IsRooted(config.path) ==> r.value == config.path
    ensures r.Ok? ==> |config.path| <= |r.value| && r.value[|r.value| - |config.path|..] == config.path
  {
    if "/" in apps then Ok(Combine(apps["/"].physicalPath, config.path)) else Err(NullReference)
  }

  /** What CreateNewApplication does to the session: add the application,
      add the pool, bind them; no commit. */
  function CreatedApplication(s: HostState, config: IisConfig, site: string): (o: Step<App>)
    requires site in s.sites
    ensures o.state.commits == s.commits
    ensures o.state.sites.Keys == s.sites.Keys && o.state.recycled == s.recycled
  {
    match GetPhysicalApplicationPath(config, s.sites[site])
    case Err(e) => Step(Err(e), s)
    case Ok(physicalPath) =>
      var added := AddApplicationStep(s, site, "/" + config.name, physicalPath);
      if added.result.Err? then added
      else
        var pooled := AddPoolStep(added.state, config.name);
        if pooled.result.Err? then Step(Err(pooled.result.error), pooled.state)
        else Step(Ok(App(config.name, physicalPath)), SetPoolState(pooled.state, site, "/" + config.name, config.name))
  }

  /** What Execute does to the host: it needs the site, and commits exactly
      once, after both additions, exactly when it succeeds. */
  function Executed(s: HostState, config: IisConfig): (o: Step<()>)
    ensures o.result.Ok? ==> o.state.commits == s.commits + 1
    ensures o.result.Err? ==> o.state.commits == s.commits
    ensures o.state.sites.Keys == s.sites.Keys && o.state.recycled == s.recycled
  {
    if config.site !in s.sites then Step(Err(SiteNotFound(config.site)), s)
    else
      var c := CreatedApplication(s, config, config.site);
      if c.result.Err? then Step(Err(c.result.error), c.state)
      else Step(Ok(()), CommitState(c.state))
  }

  method CreateNewApplication(config: IisConfig, sm: ServerManager, site: string) returns (r: Result<App>)
    requires site in sm.sites
    modifies sm
    ensures Step(r, sm.State()) == CreatedApplication(old(sm.State()), config, site)
  {
    var physicalPath := GetPhysicalApplicationPath(config, sm.sites[site]);
    if physicalPath.Err? {
      return Err(physicalPath.error);
    }
    var app := sm.AddApplication(site, "/" + config.name, physicalPath.value);
    if app.Err? {
      return app;
    }
    var appPool := sm.AddPool(config.name);
    if appPool.Err? {
      return Err(appPool.error);
    }
    sm.SetApplicationPool(site, "/" + config.name, appPool.value);
    r := Ok(App(appPool.value, physicalPath.value));
  }

  /** The subcommand and the arguments play no part: every call performs the
      same configure. */
  method Execute(configName: string, config: IisConfig, subCommand: string, args: map<string, string>, sm: ServerManager)
    returns (r: Result<()>)
    modifies sm
    ensures Step(r, sm.State()) == Executed(old(sm.State()), config)
  {
    if config.site !in sm.sites {
      return Err(SiteNotFound(config.site));
    }
    var newApp := CreateNewApplication(config, sm, config.site);
    if newApp.Err? {
      return Err(newApp.error);
    }
    sm.CommitChanges();
    r := Ok(());
  }
}

/** Properties of the older IIS plugin. */
module IisLegacyProperties {
  import opened Paths
  import opened Host
  import opened IisLegacy

  /** Without the named site, Execute fails before any Add or commit. */
  lemma ExecuteNeedsSite(s: HostState, config: IisConfig)
    requires config.site !in s.sites
    ensures Executed(s, config) == Step(Err(SiteNotFound(config.site)), s)
  {
  }

  /** Execute succeeds exactly when the site has a root application, no
      application at "/" + name and the host no pool of that name. */
  lemma ExecuteSucceedsWhen(s: HostState, config: IisConfig)
    requires config.site in s.sites
    ensures var apps := s.sites[config.site];
            Executed(s, config).result.Ok? <==> "/" in apps && "/" + config.name !in apps && config.name !in s.pools
  {
  }

  /** A successful Execute adds both the application at "/" + name, under the
      site's root directory, and the pool of that name, binds the one to the
      other and commits once; nothing else changes. */
  lemma ExecuteAlwaysAdds(s: HostState, config: IisConfig)
    requires config.site in s.sites
    requires Executed(s, config).result.Ok?
    ensures var apps := s.sites[config.site];
            var app := App(config.name, Combine(apps["/"].physicalPath, config.path));
            Executed(s, config).state
              == s.(sites := s.sites[config.site := apps["/" + config.name := app]],
                    pools := s.pools + {config.name},
                    commits := s.commits + 1)
  {
    ExecuteSucceedsWhen(s, config);
    var apps := s.sites[config.site];
    var key, physicalPath := "/" + config.name, Combine(apps["/"].physicalPath, config.path);
    assert GetPhysicalApplicationPath(config, apps) == Ok(physicalPath);
    var app := App(config.name, physicalPath);
    var added := AddApplicationStep(s, config.site, key, physicalPath);
    assert added.result.Ok?;
    var pooled := AddPoolStep(added.state, config.name);
    assert pooled.result.Ok?;
    var c := CreatedApplication(s, config, config.site);
    assert c.state == SetPoolState(pooled.state, config.site, key, config.name);
    assert c.state.sites[config.site] == apps[key := app];
    assert Executed(s, config).state == CommitState(c.state);
  }

  /** A pool of that name already present makes Execute fail on the pool Add,
      after the application Add and without a commit. */
  lemma ExecuteRefusesExistingPool(s: HostState, config: IisConfig)
    requires config.site in s.sites && "/" in s.sites[config.site] && "/" + config.name !in s.sites[config.site]
    requires config.name in s.pools
    ensures var o := Executed(s, config);
            && o.result == Err(DuplicateEntry(config.name))
            && o.state.commits == s.commits
            && "/" + config.name in o.state.sites[config.site]
  {
  }

  /** Running Execute a second time after a successful run fails on the
      application Add, changes nothing and commits nothing. */
  lemma ExecuteIsNotIdempotent(s: HostState, config: IisConfig)
    requires Executed(s, config).result.Ok?
    ensures var o := Executed(s, config);
            Executed(o.state, config) == Step(Err(DuplicateEntry("/" + config.name)), o.state)
  {
    ExecuteAlwaysAdds(s, config);
  }
}

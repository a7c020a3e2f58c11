/**
 * The current IIS plugin: configure a web application (create-if-absent),
 * recycle its application pool, restart the IIS service under one shared
 * deadline, and the dispatch of the three subcommands.
 *
 * The configured root path (Config.Current.Path) and the set of existing
 * directories are parameters; the tick counts read around the service stop
 * are parameters too.
 */
module Iis {
  import opened Wrappers
  import opened Paths
  import opened Host

  const IisServiceName: string := "W3SVC"
  const TimeOutMs: int := 15000

  const ConfigureCommand: string := "configure"
  const RecycleCommand: string := "recycle"
  const RestartCommand: string := "restart"

  /** The subcommands and their descriptions. */
  const SubCommandTable: map<string, string> := map[
    ConfigureCommand := "configures a web application in IIS",
    RestartCommand := "restarts the IIS service",
    RecycleCommand := "recycles the configured application's app pool"]

  datatype IisConfig = IisConfig(site: string, path: string, name: string, browseOnStart: bool)

  // ---------------------------------------------------------------- dispatch

  datatype Operation = ConfigureOp | RecycleOp | RestartOp

  /** The operation a subcommand selects: exactly the subcommands the plugin
      advertises select one, each its own. */
  function Dispatch(subCommand: string): (op: Option<Operation>)
    ensures op.Some? <==> subCommand in SubCommandTable
    ensures op == Some(ConfigureOp) <==> subCommand == ConfigureCommand
    ensures op == Some(RecycleOp) <==> subCommand == RecycleCommand
    ensures op == Some(RestartOp) <==> subCommand == RestartCommand
  {
    if subCommand == ConfigureCommand then Some(ConfigureOp)
    else if subCommand == RecycleCommand then Some(RecycleOp)
    else if subCommand == RestartCommand then Some(RestartOp)
    else None
  }

  // ------------------------------------------------------------ pure parts

  /** The key GetWebApplication looks the application up by. */
  function ApplicationKey(config: IisConfig): string
  {
    Combine("/", config.name)
  }

  /** The physical directory of a new application ends in the configured
      path; it lies under the configured root unless that path is rooted, in
      which case it is that path. */
  function GetPhysicalApplicationPath(root: string, config: IisConfig): (p: string)
    ensures |config.path| <= |p| && p[|p| - |config.path|..] == config.path
    ensures !IsRooted(config.path) ==> root <= p
    ensures IsRooted(config.path) ==> p == config.path
  {
    Combine(root, config.path)
  }

  /** The named site, or SiteNotFound when the host has no such site. */
  function GetLocalWebSite(sites: map<string, map<string, App>>, config: IisConfig): (r: Result<string>)
    ensures r.Ok? <==> config.site in sites
    ensures r.Ok? ==> r.value == config.site
    ensures r.Err? ==> r.error == SiteNotFound(config.site)
  {
    if config.site in sites then Ok(config.site) else Err(SiteNotFound(config.site))
  }

  /** The application the site already has under the configured name. For a
      name that is not rooted that is the one at "/" + name, where a new
      application is created; for a rooted name it is the one at the name
      itself, which is never where a new application is created. */
  function FindApplication(apps: map<string, App>, config: IisConfig): (r: Option<App>)
    ensures !IsRooted(config.name) ==> (r.Some? <==> "/" + config.name in apps)
    ensures !IsRooted(config.name) && r.Some? ==> r.value == apps["/" + config.name]
    ensures IsRooted(config.name) ==> (r.Some? <==> config.name in apps)
    ensures IsRooted(config.name) && r.Some? ==> r.value == apps[config.name]
  {
    var key := ApplicationKey(config);
    if key in apps then Some(apps[key]) else None
  }

  // -------------------------------------------------- specification functions

  /** What CreateNewApplication does to the host: fail when the physical
      directory is missing, otherwise add the application, reuse or add the
      pool named after it, bind the two and commit once. */
  function CreatedApplication(s: HostState, config: IisConfig, site: string, root: string, dirs: set<string>): (o: Step<App>)
    requires site in s.sites
    ensures o.result.Err? ==> o.state == s
    ensures o.state.commits == if o.result.Ok? then s.commits + 1 else s.commits
    ensures o.result.Ok? ==> o.result.value.pool == config.name && config.name in o.state.pools
    ensures o.result.Ok? ==> site in o.state.sites && "/" + config.name in o.state.sites[site]
                             && o.state.sites[site]["/" + config.name] == o.result.value
    ensures Extends(s, o.state)
  {
    var appPath := GetPhysicalApplicationPath(root, config);
    if appPath !in dirs then Step(Err(DirectoryNotFound(config.path)), s)
    else
      var added := AddApplicationStep(s, site, "/" + config.name, appPath);
      if added.result.Err? then added
      else
        var pooled := if config.name in added.state.pools then added.state
                      else AddPoolStep(added.state, config.name).state;
        var bound := SetPoolState(pooled, site, "/" + config.name, config.name);
        Step(Ok(App(config.name, appPath)), CommitState(bound))
  }

  /** What GetWebApplication does: the existing application, or (only when
      asked to) a newly created one. */
  function WebApplication(s: HostState, config: IisConfig, site: string, root: string, dirs: set<string>, createIfNeeded: bool): (o: Step<Option<App>>)
    requires site in s.sites
    ensures createIfNeeded && o.result.Ok? ==> o.result.value.Some?
    ensures !createIfNeeded ==> o == Step(Ok(FindApplication(s.sites[site], config)), s)
  {
    match FindApplication(s.sites[site], config)
    case Some(app) => Step(Ok(Some(app)), s)
    case None =>
      if !createIfNeeded then Step(Ok(None), s)
      else
        var c := CreatedApplication(s, config, site, root, dirs);
        if c.result.Ok? then Step(Ok(Some(c.result.value)), c.state)
        else Step(Err(c.result.error), c.state)
  }

  /** What ConfigureWebApplication does to the host. It only ever grows the
      host, commits at most once, leaves the host untouched when it fails, and
      on success returns the application now installed at "/" + name. */
  function Configured(s: HostState, config: IisConfig, root: string, dirs: set<string>): (o: Step<App>)
    ensures Extends(s, o.state)
    ensures o.state.commits <= s.commits + 1
    ensures o.result.Err? ==> o.state == s
    ensures o.result.Ok? ==> config.site in o.state.sites
    ensures o.result.Ok? && !IsRooted(config.name) ==>
              "/" + config.name in o.state.sites[config.site]
              && o.state.sites[config.site]["/" + config.name] == o.result.value
  {
    match GetLocalWebSite(s.sites, config)
    case Err(e) => Step(Err(e), s)
    case Ok(site) =>
      match FindApplication(s.sites[site], config)
      case Some(app) => Step(Ok(app), s)
      case None => CreatedApplication(s, config, site, root, dirs)
  }

  /** What RecycleAppPool does to the host: recycle the pool of the existing
      application; a missing application or pool is a null dereference. */
  function Recycled(s: HostState, config: IisConfig): (o: Step<()>)
    ensures o.state.sites == s.sites && o.state.pools == s.pools && o.state.commits == s.commits
    ensures o.result.Err? ==> o.state == s
  {
    match GetLocalWebSite(s.sites, config)
    case Err(e) => Step(Err(e), s)
    case Ok(site) =>
      match FindApplication(s.sites[site], config)
      case None => Step(Err(NullReference), s)
      case Some(app) =>
        if app.pool !in s.pools then Step(Err(NullReference), s)
        else Step(Ok(()), RecycleState(s, app.pool))
  }

  /** The wait budget of the start phase: what is left of the shared budget
      after the stop phase. It is not clamped, so it is negative once the stop
      phase took longer than the whole budget. */
  function StartTimeout(stopTick: int, startTick: int): (ms: int)
    ensures ms + (startTick - stopTick) == TimeOutMs
    ensures ms < 0 <==> startTick - stopTick > TimeOutMs
    ensures ms == TimeOutMs <==> startTick == stopTick
  {
    TimeOutMs - (startTick - stopTick)
  }

  /** An outcome of the service control manager with the services then
      running and the commands it was sent. */
  datatype ServiceStep = ServiceStep(result: Result<()>, running: set<string>, calls: seq<ServiceCall>)

  /** What RestartIis does, given the services running beforehand and the
      services that depend on W3SVC: Stop is sent first and stops those
      dependents; when it is refused (the service is not running) nothing
      more is sent; otherwise the stop wait gets the whole budget, Start is
      sent for W3SVC alone and the start wait gets what is left of it. */
  function Restarted(running: set<string>, dependents: set<string>, stopTick: int, startTick: int): (o: ServiceStep)
    ensures o.result.Ok? <==> IisServiceName in running
    ensures o.result.Err? ==> o.result.error == ServiceNotActive(IisServiceName)
    ensures (IisServiceName in o.running) == o.result.Ok?
    ensures o.running - {IisServiceName} == running - dependents - {IisServiceName}
    ensures o.running <= running
    ensures forall d | d in dependents && d != IisServiceName :: d !in o.running
  {
    var stopped := running - {IisServiceName} - dependents;
    if IisServiceName !in running then
      ServiceStep(Err(ServiceNotActive(IisServiceName)), stopped, [ServiceCall.Stop(IisServiceName)])
    else
      ServiceStep(Ok(()), stopped + {IisServiceName},
        [ ServiceCall.Stop(IisServiceName),
          ServiceCall.WaitForStatus(IisServiceName, Stopped, TimeOutMs),
          ServiceCall.Start(IisServiceName),
          ServiceCall.WaitForStatus(IisServiceName, Running, StartTimeout(stopTick, startTick)) ])
  }

  // ------------------------------------------------------------- operations

  method CreateNewApplication(config: IisConfig, sm: ServerManager, site: string, root: string, dirs: set<string>)
    returns (r: Result<App>)
    requires site in sm.sites
    modifies sm
    ensures Step(r, sm.State()) == CreatedApplication(old(sm.State()), config, site, root, dirs)
  {
    var appPath := GetPhysicalApplicationPath(root, config);
    if appPath !in dirs {
      return Err(DirectoryNotFound(config.path));
    }
    var added := sm.AddApplication(site, "/" + config.name, appPath);
    if added.Err? {
      return added;
    }
    if config.name !in sm.pools {
      var pool := sm.AddPool(config.name);
    }
    sm.SetApplicationPool(site, "/" + config.name, config.name);
    sm.CommitChanges();
    r := Ok(App(config.name, appPath));
  }

  method GetWebApplication(config: IisConfig, sm: ServerManager, site: string, root: string, dirs: set<string>, createIfNeeded: bool)
    returns (r: Result<Option<App>>)
    requires site in sm.sites
    modifies sm
    ensures Step(r, sm.State()) == WebApplication(old(sm.State()), config, site, root, dirs, createIfNeeded)
  {
    var app := FindApplication(sm.sites[site], config);
    if app.None? && createIfNeeded {
      var created := CreateNewApplication(config, sm, site, root, dirs);
      if created.Ok? {
        r := Ok(Some(created.value));
      } else {
        r := Err(created.error);
      }
    } else {
      r := Ok(app);
    }
  }

  method ConfigureWebApplication(config: IisConfig, sm: ServerManager, root: string, dirs: set<string>)
    returns (r: Result<App>)
    modifies sm
    ensures Step(r, sm.State()) == Configured(old(sm.State()), config, root, dirs)
  {
    var localWebSite := GetLocalWebSite(sm.sites, config);
    if localWebSite.Err? {
      return Err(localWebSite.error);
    }
    var app := GetWebApplication(config, sm, localWebSite.value, root, dirs, true);
    match app
    case Err(e) =>
      r := Err(e);
    case Ok(Some(a)) =>
      r := Ok(a);
    case Ok(None) =>
      assert false;
      r := Err(NullReference);
  }

  method RecycleAppPool(config: IisConfig, sm: ServerManager) returns (r: Result<()>)
    modifies sm
    ensures Step(r, sm.State()) == Recycled(old(sm.State()), config)
  {
    var localWebSite := GetLocalWebSite(sm.sites, config);
    if localWebSite.Err? {
      return Err(localWebSite.error);
    }
    // Looked up without creating it: the root path and the directories play no part.
    var app := GetWebApplication(config, sm, localWebSite.value, "", {}, false);
    if app.Err? || app.value.None? {
      return Err(NullReference);
    }
    var poolName := app.value.value.pool;
    if poolName !in sm.pools {
      return Err(NullReference);
    }
    sm.Recycle(poolName);
    r := Ok(());
  }

  method RestartIis(scm: ServiceControlManager, stopTick: int, startTick: int) returns (r: Result<()>)
    modifies scm
    ensures var o := Restarted(old(scm.running), scm.DependentsOf(IisServiceName), stopTick, startTick);
            r == o.result && scm.running == o.running && scm.calls == old(scm.calls) + o.calls
  {
    var stopped := scm.Stop(IisServiceName);
    if stopped.Err? {
      return stopped;
    }
    scm.WaitForStatus(IisServiceName, Stopped, TimeOutMs);
    var timeOutDurationMs := StartTimeout(stopTick, startTick);
    var started := scm.Start(IisServiceName);
    if started.Err? {
      return started;
    }
    scm.WaitForStatus(IisServiceName, Running, timeOutDurationMs);
    r := Ok(());
  }

  /** The plugin object; its only state is the lazily built subcommand table. */
  class Iis {
    var subCommands: Option<map<string, string>>

    ghost predicate Valid()
      reads this
    {
      subCommands.None? || subCommands.value == SubCommandTable
    }

    constructor ()
      ensures Valid() && subCommands.None?
    {
      subCommands := None;
    }

    method SubCommands() returns (table: map<string, string>)
      requires Valid()
      modifies this
      ensures Valid() && subCommands == Some(table)
      ensures table == SubCommandTable
      ensures table.Keys == {ConfigureCommand, RestartCommand, RecycleCommand}
      ensures old(subCommands).Some? ==> subCommands == old(subCommands)
    {
      if subCommands.None? {
        subCommands := Some(SubCommandTable);
      }
      table := subCommands.value;
    }

    method Execute(configName: string, config: IisConfig, subCommand: string, args: map<string, string>,
                   sm: ServerManager, scm: ServiceControlManager, root: string, dirs: set<string>,
                   stopTick: int, startTick: int)
      returns (r: Result<()>)
      modifies sm, scm
      ensures Dispatch(subCommand) == Some(ConfigureOp) ==>
        var o := Configured(old(sm.State()), config, root, dirs);
        r == o.result.Void() && sm.State() == o.state && unchanged(scm)
      ensures Dispatch(subCommand) == Some(RecycleOp) ==>
        var o := Recycled(old(sm.State()), config);
        r == o.result && sm.State() == o.state && unchanged(scm)
      ensures Dispatch(subCommand) == Some(RestartOp) ==>
        var o := Restarted(old(scm.running), scm.DependentsOf(IisServiceName), stopTick, startTick);
        r == o.result && sm.State() == old(sm.State())
        && scm.running == o.running && scm.calls == old(scm.calls) + o.calls
      ensures Dispatch(subCommand) == None ==>
        r == Ok(()) && sm.State() == old(sm.State()) && unchanged(scm)
    {
      match Dispatch(subCommand)
      case Some(ConfigureOp) =>
        var app := ConfigureWebApplication(config, sm, root, dirs);
        r := app.Void();
      case Some(RecycleOp) =>
        r := RecycleAppPool(config, sm);
      case Some(RestartOp) =>
        r := RestartIis(scm, stopTick, startTick);
      case None =>
        r := Ok(());
    }
  }
}

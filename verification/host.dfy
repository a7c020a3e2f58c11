/**
 * The IIS administration surface and the Windows service control manager,
 * as the plugins see them. Both are foreign to the plugins; here they are an
 * abstract state (sites with their applications, application pools, a commit
 * counter, a log of recycled pools, a log of service commands) together with
 * the primitive operations the plugins call on it.
 */
module Host {

  /** The failures the plugins raise or run into. */
  datatype Error =
    | SiteNotFound(site: string)        // ServerManagerException for a missing site
    | DirectoryNotFound(path: string)   // the physical directory does not exist
    | DuplicateEntry(key: string)       // adding to a collection a key it already holds
    | NullReference                     // dereferencing a lookup that found nothing
    | ServiceNotActive(service: string) // stopping a service that is not running
    | ServiceAlreadyRunning(service: string) // starting a service that is running

  datatype Result<+T> = Ok(value: T) | Err(error: Error)
  {
    /** The same outcome with the value dropped. */
    function Void(): (r: Result<()>)
      ensures r.Ok? <==> Ok?
      ensures Err? ==> r.error == error
    {
      if Ok? then Ok(()) else Err(error)
    }
  }

  /** An application: the pool it runs under and the physical path of its
      root virtual directory. */
  datatype App = App(pool: string, physicalPath: string)

  /** What a ServerManager session holds: each site's applications keyed by
      their site-relative path, the application pool names, the pool a new
      application gets until one is assigned, how often the session was
      committed and which pools were recycled, in order. */
  datatype HostState = HostState(
    sites: map<string, map<string, App>>,
    pools: set<string>,
    defaultPool: string,
    commits: nat,
    recycled: seq<string>)

  /** An outcome together with the state it leaves behind. */
  datatype Step<+T> = Step(result: Result<T>, state: HostState)

  /** Applications.Add: refused for a path the site already has. */
  function AddApplicationStep(s: HostState, site: string, path: string, physicalPath: string): Step<App>
    requires site in s.sites
  {
    if path in s.sites[site] then Step(Err(DuplicateEntry(path)), s)
    else
      var app := App(s.defaultPool, physicalPath);
      Step(Ok(app), s.(sites := s.sites[site := s.sites[site][path := app]]))
  }

  /** ApplicationPools.Add: refused for a name already present. */
  function AddPoolStep(s: HostState, name: string): Step<string>
  {
    if name in s.pools then Step(Err(DuplicateEntry(name)), s)
    else Step(Ok(name), s.(pools := s.pools + {name}))
  }

  /** Assigning Application.ApplicationPoolName. */
  function SetPoolState(s: HostState, site: string, path: string, pool: string): HostState
    requires site in s.sites && path in s.sites[site]
  {
    s.(sites := s.sites[site := s.sites[site][path := s.sites[site][path].(pool := pool)]])
  }

  /** ServerManager.CommitChanges. */
  function CommitState(s: HostState): HostState
  {
    s.(commits := s.commits + 1)
  }

  /** ApplicationPool.Recycle. */
  function RecycleState(s: HostState, pool: string): HostState
  {
    s.(recycled := s.recycled + [pool])
  }

  /** Every application runs under a pool the host has. */
  ghost predicate PoolsBound(s: HostState)
  {
    forall site, path | site in s.sites && path in s.sites[site] :: s.sites[site][path].pool in s.pools
  }

  /** t grows s: the same sites, every application of s still present and
      unchanged, no pool removed, nothing recycled and no commit undone. */
  ghost predicate Extends(s: HostState, t: HostState)
  {
    && t.sites.Keys == s.sites.Keys
    && (forall site, path | site in s.sites && path in s.sites[site] ::
          site in t.sites && path in t.sites[site] && t.sites[site][path] == s.sites[site][path])
    && s.pools <= t.pools
    && t.defaultPool == s.defaultPool
    && t.recycled == s.recycled
    && s.commits <= t.commits
  }

  /** A ServerManager session over the host's configuration. */
  class ServerManager {
    var sites: map<string, map<string, App>>
    var pools: set<string>
    const defaultPool: string
    var commits: nat
    var recycled: seq<string>

    constructor (sites: map<string, map<string, App>>, pools: set<string>, defaultPool: string)
      ensures State() == HostState(sites, pools, defaultPool, 0, [])
    {
      this.sites := sites;
      this.pools := pools;
      this.defaultPool := defaultPool;
      this.commits := 0;
      this.recycled := [];
    }

    ghost function State(): HostState
      reads this
    {
      HostState(sites, pools, defaultPool, commits, recycled)
    }

    method AddApplication(site: string, path: string, physicalPath: string) returns (r: Result<App>)
      requires site in sites
      modifies this
      ensures Step(r, State()) == AddApplicationStep(old(State()), site, path, physicalPath)
    {
      if path in sites[site] {
        r := Err(DuplicateEntry(path));
      } else {
        var app := App(defaultPool, physicalPath);
        sites := sites[site := sites[site][path := app]];
        r := Ok(app);
      }
    }

    method AddPool(name: string) returns (r: Result<string>)
      modifies this
      ensures Step(r, State()) == AddPoolStep(old(State()), name)
    {
      if name in pools {
        r := Err(DuplicateEntry(name));
      } else {
        pools := pools + {name};
        r := Ok(name);
      }
    }

    method SetApplicationPool(site: string, path: string, pool: string)
      requires site in sites && path in sites[site]
      modifies this
      ensures State() == SetPoolState(old(State()), site, path, pool)
    {
      sites := sites[site := sites[site][path := sites[site][path].(pool := pool)]];
    }

    method CommitChanges()
      modifies this
      ensures State() == CommitState(old(State()))
    {
      commits := commits + 1;
    }

    method Recycle(pool: string)
      requires pool in pools
      modifies this
      ensures State() == RecycleState(old(State()), pool)
    {
      recycled := recycled + [pool];
    }
  }

  datatype ServiceStatus = Stopped | Running

  /** A command sent to a Windows service; timeouts are in milliseconds. */
  datatype ServiceCall =
    | Stop(service: string)
    | Start(service: string)
    | WaitForStatus(service: string, status: ServiceStatus, timeoutMs: int)

  /** The service control manager: which services run, which services
      depend on which, and every command sent to it, in order, whether or
      not the service accepted it. */
  class ServiceControlManager {
    var running: set<string>
    var calls: seq<ServiceCall>
    /** For a service, every service that depends on it, directly or
        through another service. */
    const dependents: map<string, set<string>>

    constructor (running: set<string>, dependents: map<string, set<string>>)
      ensures this.running == running && this.dependents == dependents && calls == []
    {
      this.running := running;
      this.dependents := dependents;
      calls := [];
    }

    function DependentsOf(service: string): set<string>
    {
      if service in dependents then dependents[service] else {}
    }

    /** ServiceController.Stop: the services that depend on this one are
        stopped first; the stop itself is refused for a service that is not
        running. */
    method Stop(service: string) returns (r: Result<()>)
      modifies this
      ensures calls == old(calls) + [ServiceCall.Stop(service)]
      ensures r.Ok? <==> service in old(running)
      ensures r.Err? ==> r.error == ServiceNotActive(service)
      ensures running == old(running) - {service} - DependentsOf(service)
    {
      calls := calls + [ServiceCall.Stop(service)];
      var wasRunning := service in running;
      running := running - DependentsOf(service);
      if wasRunning {
        running := running - {service};
        r := Ok(());
      } else {
        r := Err(ServiceNotActive(service));
      }
    }

    /** ServiceController.Start: refused for a service that is running. */
    method Start(service: string) returns (r: Result<()>)
      modifies this
      ensures calls == old(calls) + [ServiceCall.Start(service)]
      ensures r.Ok? <==> service !in old(running)
      ensures r.Err? ==> r.error == ServiceAlreadyRunning(service)
      ensures running == old(running) + {service}
    {
      calls := calls + [ServiceCall.Start(service)];
      if service !in running {
        running := running + {service};
        r := Ok(());
      } else {
        r := Err(ServiceAlreadyRunning(service));
      }
    }

    /** ServiceController.WaitForStatus; the status is reached at once here. */
    method WaitForStatus(service: string, status: ServiceStatus, timeoutMs: int)
      modifies this
      ensures calls == old(calls) + [ServiceCall.WaitForStatus(service, status, timeoutMs)]
      ensures running == old(running)
    {
      calls := calls + [ServiceCall.WaitForStatus(service, status, timeoutMs)];
    }
  }
}

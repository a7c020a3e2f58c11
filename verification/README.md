# Nitrate IIS and SQL Server plugin cores, modelled in Dafny

Nitrate is an operator tool whose plugins bring a local machine into a
declared state. This project models three small cores of it:

* the current IIS plugin (`Plugins/IIS/Iis.cs`): `configure` creates a web
  application under a site if it is not there yet (create-if-absent, reusing
  or adding the application pool named after it, one commit), `recycle`
  recycles the pool of an existing application, `restart` stops and starts
  the `W3SVC` service under one shared 15000 ms budget, and `Execute`
  dispatches the three subcommands; the plugin lazily builds its subcommand
  table once;
* the older IIS plugin (`Plugins/IIS/IIS/Iis.cs`): whatever the subcommand,
  it adds the application and a fresh pool unconditionally and commits once,
  so a second run is refused;
* `UserForLogin` (`Plugins/SqlServer/ExtensionMethods.cs`): the first database
  user whose login equals a given name, ignoring case.

IIS itself is foreign to the plugins. Module `Host` replaces it by an abstract
state: a map from site name to the site's applications (keyed by site-relative
path, each with its pool name and the physical path of its root virtual
directory), the set of pool names, the pool a new application gets before one
is assigned, a commit counter and the log of recycled pools. The class
`Host.ServerManager` holds that state in fields and offers the primitives the
plugins call (`Applications.Add`, `ApplicationPools.Add`, assigning
`ApplicationPoolName`, `CommitChanges`, `Recycle`); `Host.ServiceControlManager`
knows which services run and which depend on which, and records every command
sent to them; stopping a service first stops the running services that depend
on it, and it refuses to stop a service that is not running and to start one
that is. Each plugin
operation is a method over these objects, proved equal to a specification
function over the
`HostState` value (`Iis.Configured`, `Iis.Recycled`, `IisLegacy.Executed`, …),
and the plugin's promises are lemmas about those functions (modules
`IisProperties` and `IisLegacyProperties`).

Exceptions become `Result` values: `SiteNotFound`, `DirectoryNotFound`,
`DuplicateEntry` (adding a key a collection already holds), `NullReference`
(dereferencing a lookup that found nothing), `ServiceNotActive` and
`ServiceAlreadyRunning` (the service controller refusing a Stop or a Start). The configured
root path (`Config.Current.Path`), the set of existing directories and the two
tick counts read around the service stop are parameters.

Three behaviours of the code worth knowing:

* the start-phase wait budget `15000 - (startTick - stopTick)` is not clamped
  at zero, so it is negative when stopping took longer than 15000 ms
  (`Iis.StartTimeout`);
* recycling with no application at the configured path is a null
  dereference (`NullReference`), not a distinct "application not found"
  error; the same holds when the application's pool does not exist;
* the application is looked up at `Path.Combine("/", Name)` but created at
  `"/" + Name`. The two agree unless `Name` is rooted (it starts with `\` or
  `/`, or has `:` as its second character); for a rooted name a second
  configure misses the application it created, adds it again and is refused
  (`IisProperties.ConfigureRootedNameRepeatsAdd`).

## Model

| member | source | states |
|---|---|---|
| `Paths.Combine` | Plugins/IIS/Iis.cs:166-169 | the second argument always ends the result; a rooted second argument is the result; otherwise the first argument starts it and at most one separator stands between them, inserted exactly when both are non-empty and the first does not already end in a separator |
| `Paths.RootJoin` | Plugins/IIS/Iis.cs:142-155 | for a name that is not rooted, the lookup key `Combine("/", Name)` equals the creation key `"/" + Name` |
| `Paths.RootedJoin` | Plugins/IIS/Iis.cs:142-155 | for a rooted name the lookup key `Combine("/", Name)` is the name itself and never the creation key `"/" + Name` |
| `Iis.Dispatch` | Plugins/IIS/Iis.cs:71-85 | exactly `configure`, `recycle` and `restart`, the keys of the subcommand table, select an operation, each its own; every other subcommand selects none |
| `Iis.GetPhysicalApplicationPath` | Plugins/IIS/Iis.cs:166-169 | the new application's directory ends in the configured path; it lies under the configured root unless that path is rooted, and is then the path itself |
| `Iis.GetLocalWebSite` | Plugins/IIS/Iis.cs:128-138 | succeeds, with the configured site, exactly when the host has that site; otherwise fails with SiteNotFound naming it |
| `Iis.FindApplication` | Plugins/IIS/Iis.cs:142-143 | for a name that is not rooted, finds an application exactly when the site has one at `"/" + Name`, and then it is that one; for a rooted name the lookup is at the name itself |
| `Iis.CreatedApplication` | Plugins/IIS/Iis.cs:149-164 | a failed creation leaves the host as it was; a successful one commits exactly once and binds the application to an existing pool named `Name`; no commit otherwise |
| `Iis.WebApplication` | Plugins/IIS/Iis.cs:140-147 | with creation asked for, success always yields an application; without it, the result is the lookup and the host is unchanged |
| `Iis.Configured` | Plugins/IIS/Iis.cs:117-164 | configure only grows the host (same sites, existing applications unchanged, no pool removed, nothing recycled), commits at most once, changes nothing when it fails, and on success, for a name that is not rooted, returns the application installed at `"/" + Name` |
| `Iis.Recycled` | Plugins/IIS/Iis.cs:104-115 | recycle never changes sites, applications, pools or the commit count, and changes nothing when it fails |
| `Iis.StartTimeout` | Plugins/IIS/Iis.cs:91-98 | the elapsed stop phase plus the start budget is exactly 15000 ms; the budget is negative exactly when the stop phase took longer than that, and the full 15000 ms exactly when no time elapsed |
| `Iis.Restarted` | Plugins/IIS/Iis.cs:87-102 | restart succeeds exactly when W3SVC was running, and then W3SVC runs; otherwise it fails with ServiceNotActive and W3SVC does not run; either way every service that depends on W3SVC is stopped and is not started again, no service starts that did not run before, and every other service keeps its state |
| `Iis.CreateNewApplication` | Plugins/IIS/Iis.cs:149-164 | the host's new state and the result are those of `CreatedApplication`: directory check, Add at `"/" + Name`, pool reuse or Add, pool assignment, one commit |
| `Iis.GetWebApplication` | Plugins/IIS/Iis.cs:140-147 | the host's new state and the result are those of `WebApplication` |
| `Iis.ConfigureWebApplication` | Plugins/IIS/Iis.cs:117-126 | the host's new state and the result are those of `Configured` |
| `Iis.RecycleAppPool` | Plugins/IIS/Iis.cs:104-115 | the host's new state and the result are those of `Recycled`, looking the application up without creating it |
| `Iis.RestartIis` | Plugins/IIS/Iis.cs:87-102 | the result, the running services and the commands sent are those of `Restarted`, given the services that depend on W3SVC |
| `Iis.Iis.constructor` | Plugins/IIS/Iis.cs:54 | a new plugin has not built its subcommand table yet |
| `Iis.Iis.SubCommands` | Plugins/IIS/Iis.cs:54-69 | returns the table of the three subcommands, builds it only on the first call and keeps returning the same table |
| `Iis.Iis.Execute` | Plugins/IIS/Iis.cs:71-85 | `configure`, `recycle` and `restart` perform their operation, with its outcome, and touch only what it touches; any other subcommand changes nothing |
| `IisProperties.ConfigureNeedsSite` | Plugins/IIS/Iis.cs:121-137 | without the site, configure fails with SiteNotFound and the host is unchanged: no lookup result used, no directory check, no Add, no commit |
| `IisProperties.ConfigureExistingIsNoOp` | Plugins/IIS/Iis.cs:142-146 | an application already at the lookup key `Combine("/", Name)` is returned unchanged, with no Add and no commit |
| `IisProperties.ConfigureNeedsDirectory` | Plugins/IIS/Iis.cs:151-153 | a missing physical directory fails configure with DirectoryNotFound naming the configured path, before any Add, and without a commit |
| `IisProperties.CreatesAt` | Plugins/IIS/Iis.cs:151-163 | creating an application whose `"/" + Name` is free, in a directory that exists, adds it there with pool `Name`, adds that pool if missing, commits once and changes nothing else |
| `IisProperties.ConfigureCreates` | Plugins/IIS/Iis.cs:155-163 | when the lookup misses and `"/" + Name` is free, a successful creation adds exactly one application, at `"/" + Name`, with the combined physical path and pool `Name`, adds the pool name if missing, commits once, and changes nothing else |
| `IisProperties.ConfigureReusesPool` | Plugins/IIS/Iis.cs:157-159 | an existing pool named `Name` is reused and no pool is added; otherwise exactly that one pool is added; either way the new application runs under an existing pool named `Name` |
| `IisProperties.ConfigureIsIdempotent` | Plugins/IIS/Iis.cs:142-146 | for a name that is not rooted, a second configure after a successful one returns the same application and changes nothing |
| `IisProperties.ConfigureRootedNameRepeatsAdd` | Plugins/IIS/Iis.cs:142-155 | for a rooted name, a second configure after one that created the application misses it, is refused on the Add of `"/" + Name`, and changes nothing |
| `IisProperties.ConfigureKeepsPoolsBound` | Plugins/IIS/Iis.cs:157-159 | if every application ran under an existing pool before configure, it still does after |
| `IisProperties.RecycleTargetsApplicationPool` | Plugins/IIS/Iis.cs:104-115 | without the site recycle fails with SiteNotFound, without an application at the lookup key with a null dereference; it succeeds exactly when the application and its pool exist, and then recycles that application's pool once and changes nothing else |
| `IisProperties.RestartStopsBeforeStart` | Plugins/IIS/Iis.cs:94-101 | Stop is sent first; Start is sent exactly when the service was running (the Stop was accepted), and then after the stop wait; Stop comes before any Start |
| `IisProperties.RestartSharesBudget` | Plugins/IIS/Iis.cs:91-101 | when the service was running: the stop wait gets 15000 ms; the elapsed stop phase plus the start wait is 15000 ms; the start wait is negative exactly when stopping took longer |
| `IisLegacy.GetPhysicalApplicationPath` | Plugins/IIS/IIS/Iis.cs:72-75 | the path ends in the configured path and lies under the physical path of the site's root application, unless the configured path is rooted and is then the path itself; a site without a root application is a null dereference |
| `IisLegacy.CreatedApplication` | Plugins/IIS/IIS/Iis.cs:59-70 | creating the application never commits, and adds or removes no site |
| `IisLegacy.Executed` | Plugins/IIS/IIS/Iis.cs:44-57 | one commit exactly when Execute succeeds, none when it fails; no site is created or removed and nothing is recycled |
| `IisLegacy.CreateNewApplication` | Plugins/IIS/IIS/Iis.cs:59-70 | the session's new state and the result are those of `CreatedApplication`: Add the application, Add the pool, assign the pool |
| `IisLegacy.Execute` | Plugins/IIS/IIS/Iis.cs:44-57 | the new state and the result are those of `Executed`, which does not depend on the subcommand or the arguments |
| `IisLegacyProperties.ExecuteNeedsSite` | Plugins/IIS/IIS/Iis.cs:47-52 | without the site, Execute fails with SiteNotFound before any Add or commit |
| `IisLegacyProperties.ExecuteSucceedsWhen` | Plugins/IIS/IIS/Iis.cs:59-75 | Execute succeeds exactly when the site has a root application and neither the application at `"/" + Name` nor the pool `Name` exists yet |
| `IisLegacyProperties.ExecuteAlwaysAdds` | Plugins/IIS/IIS/Iis.cs:54-67 | a successful Execute adds the application at `"/" + Name` under the site's root directory and a new pool `Name`, binds them, commits once and changes nothing else |
| `IisLegacyProperties.ExecuteRefusesExistingPool` | Plugins/IIS/IIS/Iis.cs:63-65 | an existing pool named `Name` is not reused: Execute fails on the pool Add, after the application Add, with no commit |
| `IisLegacyProperties.ExecuteIsNotIdempotent` | Plugins/IIS/IIS/Iis.cs:63 | a second Execute after a successful one fails on the application Add and changes nothing |
| `SqlServer.EqualsIgnoreCaseIsEquivalence` | Plugins/SqlServer/ExtensionMethods.cs:21 | the case-insensitive comparison is reflexive, symmetric and transitive |
| `SqlServer.FirstMatch` | Plugins/SqlServer/ExtensionMethods.cs:19-25 | the result is the lowest index whose login matches ignoring case, and there is none exactly when no login matches |
| `SqlServer.UserForLogin` | Plugins/SqlServer/ExtensionMethods.cs:17-26 | returns no user exactly when no login matches ignoring case; a returned user's login matches; it is the user at the lowest matching index; the users are not modified |
| `SqlServer.FirstMatchIgnoresCase` | Plugins/SqlServer/ExtensionMethods.cs:21 | two login names that differ only in letter case find the same user |
| `Host.ServerManager.constructor` | Plugins/IIS/Iis.cs:106 | a new session sees the given sites and pools, with no commit and nothing recycled |
| `Host.ServerManager.AddApplication` | Plugins/IIS/Iis.cs:155 | adds an application with the default pool at a path the site does not have; refuses a path it has, changing nothing |
| `Host.ServerManager.AddPool` | Plugins/IIS/Iis.cs:157 | adds a pool name not present; refuses one present, changing nothing |
| `Host.ServerManager.SetApplicationPool` | Plugins/IIS/Iis.cs:159 | changes only the pool of the one application |
| `Host.ServerManager.CommitChanges` | Plugins/IIS/Iis.cs:161 | increments the commit count and changes nothing else |
| `Host.ServerManager.Recycle` | Plugins/IIS/Iis.cs:114 | appends the pool to the recycle log and changes nothing else |
| `Host.ServiceControlManager.constructor` | Plugins/IIS/Iis.cs:89 | the given services run, each service has the given dependents, and no command has been sent yet |
| `Host.ServiceControlManager.Stop` | Plugins/IIS/Iis.cs:94 | records the Stop; stops the services that depend on this one; accepts it exactly when the service runs, and then the service no longer runs; refuses it with ServiceNotActive otherwise; no other service changes |
| `Host.ServiceControlManager.Start` | Plugins/IIS/Iis.cs:100 | records the Start; accepts it exactly when the service does not run, and then it runs; refuses it with ServiceAlreadyRunning otherwise |
| `Host.ServiceControlManager.WaitForStatus` | Plugins/IIS/Iis.cs:95 | records one wait with its target status and timeout and changes no service |

## Left out

- LaunchApplication (Plugins/IIS/Iis.cs:171-176) opens a browser on the site's first binding; it is operating-system I/O. It runs only when `BrowseOnStart` is set, after configure has returned its application; an exception from it would propagate.
- Service waits: in the model a wait reaches its status at once and only records its timeout. A `WaitForStatus` that times out throws in the C# code, and a timeout of the stop wait would keep Start from being sent; that is not modelled. The refusals of `Stop` and `Start` (a service not running, a service already running) are modelled; other reasons the service controller throws (access denied, a service that cannot stop, a missing service) are not.
- Service dependencies: the dependents a `Stop` takes down are given to the service control manager as a map, already closed over indirect dependents. The Stop and wait commands the service controller sends to each dependent are not recorded in the command log. Starting a service does not start the services it depends on in the model, as the service control manager would.
- `Environment.TickCount` wrap-around: the tick counts are unbounded integers and the elapsed time is their plain difference.
- Paths.Combine: `Path.Combine` throws `ArgumentException` when an argument holds an invalid path character (`"`, `<`, `>`, `|` or a control character); the model's `Combine` never fails.
- Host.ServerManager.AddApplication, Host.ServerManager.AddPool: the library's own rule for a duplicate key is modelled as an immediate refusal at the Add; whether the library refuses at the Add or at `CommitChanges` is library-defined.
- Uncommitted changes: a failed operation drops its `ServerManager` session; the model keeps the session's state and records commits only by their count, so "nothing was committed" is stated as an unchanged commit count.
- Plugin plumbing: the plugin export, the base class, the installation instructions, the descriptions, the sample configurations and the configuration defaults are constant data without behaviour.
- Virtual directories: an application always carries the physical path of its root virtual directory, so the older plugin's second null dereference, an application "/" without a virtual directory "/" (Plugins/IIS/IIS/Iis.cs:74), cannot occur in the model.
- Application identity: an application is a value (pool, physical path), so "the same application" means equal values, not the same object.
- SqlServer.EqualsIgnoreCase: only ASCII letters are case-folded; the full Unicode ordinal case-insensitive comparison is not modelled. Null logins and null names are not modelled.
- SqlServer.UserForLogin: the users are a sequence of (name, login) values rather than the database's user collection, so "not modified" holds because a value cannot change.

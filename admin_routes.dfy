/**
 The window-route resolvers of adminRoutes.js. Each maps the runtime context
 (a bundler-injected entry constant, the global `window` and its `location`)
 to the URL of the auth, admin or dashboard window, and never raises: every
 failure degrades to a relative fallback path.
 */
module AdminRoutes {
  import opened Wrappers
  import opened JsStrings

  const FallbackAuthHtml := "../main_window/index.html"
  const FallbackAdminHtml := "../admin/index.html"
  const FallbackDashboardHtml := "../dashboard/index.html"

  /** The port of the local development server. */
  const DevServerPort := "9000"

  /** The parts of `window.location` the resolvers read; `pathname` is read
      through optional chaining, so it may be missing. */
  datatype Location = Location(
    protocol: string,
    hostname: string,
    port: string,
    pathname: Option<string>,
    origin: string,
    href: string)

  /** The global `window` as a resolver sees it: `NoWindow` when reading it
      raises (it is undeclared or nullish), otherwise its possibly missing `location`. */
  datatype Window = NoWindow | Window(location: Option<Location>)

  /** `new URL(relative, base).href`, as a partial function of the relative
      path and the base: None when the constructor raises. */
  type UrlResolver = (string, string) -> Option<string>

  /** The entry constants the bundler may inject; None when undefined. */
  datatype Entries = Entries(mainWindow: Option<string>, admin: Option<string>, dashboard: Option<string>)

  /** Everything a resolver depends on. */
  datatype Context = Context(entries: Entries, window: Window, resolveUrl: UrlResolver)

  /** `resolveFileUrl`: the relative path resolved against the current `href`.
      The relative path comes back unchanged when there is no location or when
      URL construction raises; otherwise the resolved `href` comes back. */
  function ResolveFileUrl(relativePath: string, location: Option<Location>, resolveUrl: UrlResolver): (url: string)
    ensures location.None? ==> url == relativePath
    ensures location.Some? ==>
      url == match resolveUrl(relativePath, location.value.href)
             case Some(resolved) => resolved
             case None => relativePath
  {
    match location
    case None => relativePath
    case Some(loc) =>
      if loc.protocol == "file:" then
        match resolveUrl(relativePath, loc.href)
        case Some(resolved) => resolved
        case None => relativePath
      else
        match resolveUrl(relativePath, loc.href)
        case Some(resolved) => resolved
        case None => relativePath
  }

  /** The `file:` and the other branch of ResolveFileUrl agree: the protocol
      of the current location never changes the result. */
  lemma FileUrlIgnoresProtocol(relativePath: string, loc: Location, protocol: string, resolveUrl: UrlResolver)
    ensures ResolveFileUrl(relativePath, Some(loc), resolveUrl)
         == ResolveFileUrl(relativePath, Some(loc.(protocol := protocol)), resolveUrl)
  {
  }

  predicate IsLocalHost(loc: Location) {
    loc.hostname == "localhost" || loc.hostname == "127.0.0.1"
  }

  predicate IsDevServer(loc: Location) {
    IsLocalHost(loc) && loc.port == DevServerPort
  }

  /** `location.pathname?.includes(needle)`: false when the pathname is missing. */
  predicate PathIncludes(loc: Location, needle: string) {
    loc.pathname.Some? && Includes(loc.pathname.value, needle)
  }

  /** `resolveAuthLocation`. */
  function ResolveAuthLocation(ctx: Context): (url: string)
    ensures ctx.entries.mainWindow.Some? ==> url == ctx.entries.mainWindow.value
    ensures ctx.entries.mainWindow.None? && (ctx.window.NoWindow? || ctx.window.location.None?)
      ==> url == FallbackAuthHtml
    ensures ctx.entries.mainWindow.None? && ctx.window.Window? && ctx.window.location.Some? ==>
      var loc := ctx.window.location.value;
      url == if IsDevServer(loc) then loc.origin + "/main_window"
             else if PathIncludes(loc, "/main_window") then loc.href
             else ResolveFileUrl(FallbackAuthHtml, Some(loc), ctx.resolveUrl)
  {
    match ctx.entries.mainWindow
    case Some(entry) => entry
    case None =>
      match ctx.window
      case NoWindow => FallbackAuthHtml
      case Window(location) =>
        match location
        case None => FallbackAuthHtml
        case Some(loc) =>
          if IsDevServer(loc) then loc.origin + "/main_window"
          else if PathIncludes(loc, "/main_window") then loc.href
          else ResolveFileUrl(FallbackAuthHtml, location, ctx.resolveUrl)
  }

  /** `resolveAdminLocation`. */
  function ResolveAdminLocation(ctx: Context): (url: string)
    ensures ctx.entries.admin.Some? ==> url == ctx.entries.admin.value
    ensures ctx.entries.admin.None? && (ctx.window.NoWindow? || ctx.window.location.None?)
      ==> url == FallbackAdminHtml
    ensures ctx.entries.admin.None? && ctx.window.Window? && ctx.window.location.Some? ==>
      var loc := ctx.window.location.value;
      url == if loc.protocol == "file:" then ResolveFileUrl(FallbackAdminHtml, Some(loc), ctx.resolveUrl)
             else if IsDevServer(loc) || PathIncludes(loc, "/main_window") || PathIncludes(loc, "/auth/")
             then loc.origin + "/admin/"
             else ResolveFileUrl(FallbackAdminHtml, Some(loc), ctx.resolveUrl)
  {
    match ctx.entries.admin
    case Some(entry) => entry
    case None =>
      match ctx.window
      case NoWindow => FallbackAdminHtml
      case Window(location) =>
        match location
        case None => FallbackAdminHtml
        case Some(loc) =>
          if loc.protocol == "file:" then ResolveFileUrl(FallbackAdminHtml, location, ctx.resolveUrl)
          else if IsLocalHost(loc) && loc.port == DevServerPort then loc.origin + "/admin/"
          else if PathIncludes(loc, "/main_window") || PathIncludes(loc, "/auth/") then loc.origin + "/admin/"
          else ResolveFileUrl(FallbackAdminHtml, location, ctx.resolveUrl)
  }

  /** `resolveUserDashboardLocation`. */
  function ResolveUserDashboardLocation(ctx: Context): (url: string)
    ensures ctx.entries.dashboard.Some? ==> url == ctx.entries.dashboard.value
    ensures ctx.entries.dashboard.None? && (ctx.window.NoWindow? || ctx.window.location.None?)
      ==> url == FallbackDashboardHtml
    ensures ctx.entries.dashboard.None? && ctx.window.Window? && ctx.window.location.Some? ==>
      var loc := ctx.window.location.value;
      url == if loc.protocol == "file:" then ResolveFileUrl(FallbackDashboardHtml, Some(loc), ctx.resolveUrl)
             else if IsDevServer(loc) || PathIncludes(loc, "/main_window") || PathIncludes(loc, "/auth/")
             then loc.origin + "/dashboard/"
             else ResolveFileUrl(FallbackDashboardHtml, Some(loc), ctx.resolveUrl)
  {
    match ctx.entries.dashboard
    case Some(entry) => entry
    case None =>
      match ctx.window
      case NoWindow => FallbackDashboardHtml
      case Window(location) =>
        match location
        case None => FallbackDashboardHtml
        case Some(loc) =>
          if loc.protocol == "file:" then ResolveFileUrl(FallbackDashboardHtml, location, ctx.resolveUrl)
          else if IsLocalHost(loc) && loc.port == DevServerPort then loc.origin + "/dashboard/"
          else if PathIncludes(loc, "/main_window") || PathIncludes(loc, "/auth/") then loc.origin + "/dashboard/"
          else ResolveFileUrl(FallbackDashboardHtml, location, ctx.resolveUrl)
  }

  /** A context whose window has the location `loc` and whose entry constants are all undefined. */
  function AtLocation(loc: Location, resolveUrl: UrlResolver): (ctx: Context)
    ensures ctx.window.Window? && ctx.window.location == Some(loc)
    ensures ctx.entries.mainWindow.None? && ctx.entries.admin.None? && ctx.entries.dashboard.None?
  {
    Context(Entries(None, None, None), Window(Some(loc)), resolveUrl)
  }

  /** A defined entry constant wins whatever the window and URL resolution are. */
  lemma EntryOverridesWindow(entries: Entries, w1: Window, w2: Window, r1: UrlResolver, r2: UrlResolver)
    ensures entries.mainWindow.Some? ==>
      ResolveAuthLocation(Context(entries, w1, r1)) == ResolveAuthLocation(Context(entries, w2, r2)) == entries.mainWindow.value
    ensures entries.admin.Some? ==>
      ResolveAdminLocation(Context(entries, w1, r1)) == ResolveAdminLocation(Context(entries, w2, r2)) == entries.admin.value
    ensures entries.dashboard.Some? ==>
      ResolveUserDashboardLocation(Context(entries, w1, r1)) == ResolveUserDashboardLocation(Context(entries, w2, r2)) == entries.dashboard.value
  {
  }

  /** The auth resolver has no `file:` branch: its result never depends on the
      protocol of the current location. */
  lemma AuthIgnoresProtocol(loc: Location, protocol: string, resolveUrl: UrlResolver)
    ensures ResolveAuthLocation(AtLocation(loc, resolveUrl))
         == ResolveAuthLocation(AtLocation(loc.(protocol := protocol), resolveUrl))
  {
    FileUrlIgnoresProtocol(FallbackAuthHtml, loc, protocol, resolveUrl);
  }

  /** On the development server the auth resolver returns the in-origin
      `/main_window` path even when the pathname already names that window:
      the host test comes before the pathname test. */
  lemma AuthDevServerBeforePathname(loc: Location, resolveUrl: UrlResolver)
    requires IsDevServer(loc) && PathIncludes(loc, "/main_window")
    ensures ResolveAuthLocation(AtLocation(loc, resolveUrl)) == loc.origin + "/main_window"
  {
  }

  /** Under `file:` the admin and dashboard resolvers resolve their fallback
      against the current location, even for a local host on the development
      port or a pathname naming the auth window. */
  lemma FileProtocolBeforeDevServer(loc: Location, resolveUrl: UrlResolver)
    requires loc.protocol == "file:"
    ensures ResolveAdminLocation(AtLocation(loc, resolveUrl)) == ResolveFileUrl(FallbackAdminHtml, Some(loc), resolveUrl)
    ensures ResolveUserDashboardLocation(AtLocation(loc, resolveUrl)) == ResolveFileUrl(FallbackDashboardHtml, Some(loc), resolveUrl)
  {
  }

  /** In a packaged auth window (a `file:` location whose pathname names
      `/main_window`) the auth resolver returns the current `href` unchanged,
      while the admin resolver resolves its fallback path. */
  lemma PackagedAuthWindow(loc: Location, resolveUrl: UrlResolver)
    requires loc.protocol == "file:" && !IsDevServer(loc) && PathIncludes(loc, "/main_window")
    ensures ResolveAuthLocation(AtLocation(loc, resolveUrl)) == loc.href
    ensures ResolveAdminLocation(AtLocation(loc, resolveUrl)) == ResolveFileUrl(FallbackAdminHtml, Some(loc), resolveUrl)
  {
  }

  /** With neither entry constant defined, the admin and dashboard resolvers
      always take the same branch: both fall back, both use their in-origin
      path, or both resolve their fallback against the location. */
  lemma AdminAndDashboardAgree(ctx: Context)
    requires ctx.entries.admin.None? && ctx.entries.dashboard.None?
    ensures ctx.window.NoWindow? || ctx.window.location.None? ==>
      ResolveAdminLocation(ctx) == FallbackAdminHtml && ResolveUserDashboardLocation(ctx) == FallbackDashboardHtml
    ensures ctx.window.Window? && ctx.window.location.Some? ==>
      var loc := ctx.window.location.value;
      (ResolveAdminLocation(ctx) == loc.origin + "/admin/" && ResolveUserDashboardLocation(ctx) == loc.origin + "/dashboard/")
      || (ResolveAdminLocation(ctx) == ResolveFileUrl(FallbackAdminHtml, Some(loc), ctx.resolveUrl)
          && ResolveUserDashboardLocation(ctx) == ResolveFileUrl(FallbackDashboardHtml, Some(loc), ctx.resolveUrl))
  {
  }

  /** Served over HTTP from the development server, or from a pathname naming
      the auth window, the admin and dashboard resolvers stay in the current origin. */
  lemma ServedSectionsStayInOrigin(loc: Location, resolveUrl: UrlResolver)
    requires loc.protocol != "file:"
    requires IsDevServer(loc) || PathIncludes(loc, "/main_window") || PathIncludes(loc, "/auth/")
    ensures ResolveAdminLocation(AtLocation(loc, resolveUrl)) == loc.origin + "/admin/"
    ensures ResolveUserDashboardLocation(AtLocation(loc, resolveUrl)) == loc.origin + "/dashboard/"
  {
  }
}

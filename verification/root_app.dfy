/**
 * The root presenter: derives whether the navigation chrome is hidden and
 * whether the global filter bar is shown, and hands them, with the platform
 * initialisation signal, to the layout shell.
 */
module RootApp {
  import opened Wrappers
  import opened JsValues
  import opened Render

  /** The presenter's props; the two filter flags may be left undefined. */
  datatype RootAppProps = RootAppProps(
    globalFilterHidden: Option<bool>,
    /** Whether the `Sidebar` node passed in is truthy. */
    sidebarPresent: bool,
    globalFilterRemoved: Option<bool>)

  /** What the presenter reads from its surroundings on a render. */
  datatype Host = Host(
    /** The micro-frontend runtime's initialisation signal. */
    initialized: bool,
    /** The router's current path. */
    pathname: string,
    /** Whether the store holds a session user. */
    userPresent: bool,
    /** The product bundle and application segments of the URL. */
    bundle: string,
    app: string,
    /** The experimental global-filter entry of local storage. */
    globalFilterOverride: Option<string>)

  /** Applications of the "ansible" bundle that show the global filter. */
  const AnsibleFilterApps: seq<string> := ["inventory", "drift", "advisor"]

  /** The allow-list of bundles and applications for the global filter. */
  function IsGlobalFilterAllowed(bundle: string, app: string): (r: bool)
    ensures bundle == "insights" ==> r
    ensures bundle == "ansible" ==>
              (r <==> app == "inventory" || app == "drift" || app == "advisor")
    ensures bundle != "insights" && bundle != "ansible" ==> !r
  {
    if bundle == "insights" then true
    else bundle == "ansible" && app in AnsibleFilterApps
  }

  /** The navigation chrome is hidden without a session user or a sidebar. */
  function HideNav(userPresent: bool, sidebarPresent: bool): (r: bool)
    ensures !userPresent ==> r
    ensures !sidebarPresent ==> r
    ensures userPresent && sidebarPresent ==> !r
  {
    !userPresent || !sidebarPresent
  }

  /** The landing page is the root path exactly, not a path under it. */
  function IsLanding(pathname: string): (r: bool)
    ensures r <==> |pathname| == 1 && pathname[0] == '/'
  {
    pathname == "/"
  }

  /**
   * The props' verdict on the filter: removal forces it allowed; otherwise
   * it is allowed when not hidden and on the allow-list.
   */
  function GlobalFilterAllowed(props: RootAppProps, bundle: string, app: string): (r: bool)
    ensures IsTrue(props.globalFilterRemoved) ==> r
    ensures !IsTrue(props.globalFilterHidden) && IsGlobalFilterAllowed(bundle, app) ==> r
    ensures r ==> IsTrue(props.globalFilterRemoved) ||
                  (!IsTrue(props.globalFilterHidden) && IsGlobalFilterAllowed(bundle, app))
  {
    (!IsTrue(props.globalFilterHidden) && IsGlobalFilterAllowed(bundle, app)) ||
    IsTrue(props.globalFilterRemoved)
  }

  /**
   * The filter bar is never shown on the landing page; elsewhere it is shown
   * when allowed or when local storage holds any non-empty override value.
   */
  function IsGlobalFilterEnabled(props: RootAppProps, host: Host): (r: bool)
    ensures IsLanding(host.pathname) ==> !r
    ensures !IsLanding(host.pathname) && GlobalFilterAllowed(props, host.bundle, host.app) ==> r
    ensures !IsLanding(host.pathname) && IsNonEmpty(host.globalFilterOverride) ==> r
    ensures r ==> GlobalFilterAllowed(props, host.bundle, host.app) ||
                  IsNonEmpty(host.globalFilterOverride)
  {
    !IsLanding(host.pathname) &&
    (GlobalFilterAllowed(props, host.bundle, host.app) || IsNonEmpty(host.globalFilterOverride))
  }

  /**
   * The presenter's render: the shell, configured with the derived flags,
   * given the shell's open state and the cross-account cookie.
   */
  function RenderRootApp(props: RootAppProps, host: Host, isNavOpen: bool,
                         selectedAccountNumber: Option<string>): (r: Rendered)
    ensures !host.initialized <==> r == Nothing
    ensures r.Page? && (!host.userPresent || !props.sidebarPresent) ==>
              r.view.toggleButton == None && r.view.sidebar == None
    ensures r.Page? && host.userPresent && props.sidebarPresent ==>
              r.view.toggleButton == Some(isNavOpen) && r.view.sidebar == Some(isNavOpen)
    ensures r.Page? && IsLanding(host.pathname) ==> r.view.globalFilter == None
    ensures r.Page? ==> (r.view.globalFilter != None <==> IsGlobalFilterEnabled(props, host))
  {
    var shellProps := ShieldedRootProps(
      hideNav := Some(HideNav(host.userPresent, props.sidebarPresent)),
      isGlobalFilterEnabled := Some(IsGlobalFilterEnabled(props, host)),
      initialized := Some(host.initialized));
    RenderShieldedRoot(shellProps, isNavOpen, host.bundle, selectedAccountNumber)
  }

  /** Outside the landing page, the "insights" bundle always shows the filter bar. */
  lemma InsightsShowsFilter(props: RootAppProps, host: Host)
    requires host.bundle == "insights" && !IsLanding(host.pathname)
    requires !IsTrue(props.globalFilterHidden)
    ensures IsGlobalFilterEnabled(props, host)
  {
  }

  /**
   * In the "ansible" bundle, with the filter neither hidden nor removed and
   * outside the landing page, the bar is shown exactly for the listed
   * applications or when the local override is set.
   */
  lemma AnsibleFilterGate(props: RootAppProps, host: Host)
    requires host.bundle == "ansible" && !IsLanding(host.pathname)
    requires !IsTrue(props.globalFilterHidden) && !IsTrue(props.globalFilterRemoved)
    ensures IsGlobalFilterEnabled(props, host) <==>
              host.app in AnsibleFilterApps || IsNonEmpty(host.globalFilterOverride)
  {
  }

  /**
   * The override is read for truthiness only: outside the landing page any
   * non-empty stored value, "false" and "0" included, turns the filter bar
   * on, while a missing or empty value leaves the decision to the props.
   */
  lemma OverrideIsTruthiness(props: RootAppProps, host: Host)
    requires !IsLanding(host.pathname)
    ensures forall v: string :: v != "" ==>
              IsGlobalFilterEnabled(props, host.(globalFilterOverride := Some(v)))
    ensures IsGlobalFilterEnabled(props, host.(globalFilterOverride := Some("false")))
    ensures IsGlobalFilterEnabled(props, host.(globalFilterOverride := Some("0")))
    ensures IsGlobalFilterEnabled(props, host.(globalFilterOverride := None)) ==
              GlobalFilterAllowed(props, host.bundle, host.app)
    ensures IsGlobalFilterEnabled(props, host.(globalFilterOverride := Some(""))) ==
              GlobalFilterAllowed(props, host.bundle, host.app)
  {
  }
}

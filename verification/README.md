# Default layout of the console shell, modelled in Dafny

`src/layouts/DefaultLayout.tsx` lays out the console page: a masthead with a
navigation toggle button, a collapsible side navigation, an optional global
filter bar, an optional "viewing as account" banner and the routed content.
Two pieces of it carry logic, and this project models both.

- **`ShieldedRoot`'s local state.** It tracks whether the page is in mobile
  mode (body client width below 1200 pixels) and whether the navigation is
  open. It also keeps a mirror of the mode in a mutable reference, which the
  window-resize listener reads. Only a resize that crosses the breakpoint
  changes anything: going to mobile closes the navigation, and going to
  desktop opens it. The toggle button flips the navigation and dispatches
  `onToggle()` to the store.
  - `navigation.dfy` gives these transitions as functions (`Init`, `Resize`,
    `Toggle`). It also replays whole event histories (`Run`) and proves facts
    about them by induction.
  - `layout_shell.dfy` holds the class `ShieldedRoot`. Its fields are the
    state cells, the reference's `current` value and the log of dispatched
    actions. Its constructor and methods are proved to perform exactly those
    transitions and to keep the mirror invariant.
- **The render gate and the visibility flags.**
  - `render.dfy` gives what `ShieldedRoot` renders as a record. Before
    platform initialisation it renders nothing. Otherwise it renders a page
    with or without the toggle button and the sidebar, the filter bar and
    the account banner.
  - `root_app.dfy` holds the helpers `isGlobalFilterAllowed`, `hideNav`,
    `isLanding`, `globalFilterAllowed` and `isGlobalFilterEnabled`, and the
    way `RootApp` composes them into the shell's props.

JavaScript truthiness is modelled explicitly (`js_values.dfy`):

- An optional boolean prop is an `Option<bool>`. Left undefined, it reads
  as false.
- The cookie value and the local-storage value are `Option<string>`. They
  count as set only when present and non-empty.

The inputs the source reads from its host are passed in as plain values:

- the body's client width;
- the router path;
- the bundle and application segments of the URL;
- whether the store holds a session user;
- the initialisation signal;
- the cookie value and the local-storage value.

## Model

| member | source | states |
|---|---|---|
| `Navigation.Init` | src/layouts/DefaultLayout.tsx:35-42 | at mount the shell is in mobile mode exactly when the width is below 1200; the navigation is open exactly when the width is at least 1200; the mirror agrees with the mode; nothing has been dispatched |
| `Navigation.Resize` | src/layouts/DefaultLayout.tsx:43-59 | after any resize the mirror describes the new width. Desktop to below 1200 gives mobile mode with the navigation closed, and mobile to 1200 or more gives desktop mode with it open, whatever it was before. A resize that stays in the mirror's band changes nothing. The mirror invariant is kept and nothing is dispatched |
| `Navigation.Toggle` | src/layouts/DefaultLayout.tsx:89-92 | the navigation's open state is flipped; the mode and the mirror are unchanged; exactly one `NavToggled` is appended to the dispatched actions |
| `Navigation.ResizeIdempotent` | src/layouts/DefaultLayout.tsx:43-59 | repeating a resize to the same width changes nothing further |
| `Navigation.ResizeDependsOnlyOnBand` | src/layouts/DefaultLayout.tsx:44 | two widths on the same side of 1200 have the same effect |
| `Navigation.ToggleTwice` | src/layouts/DefaultLayout.tsx:89-92 | two toggles restore the state except for two more notifications |
| `Navigation.SameBandResizeKeepsToggle` | src/layouts/DefaultLayout.tsx:46-58 | a resize inside the current band does not undo a manual toggle |
| `Navigation.RunKeepsMirror` | src/layouts/DefaultLayout.tsx:45-57 | after any sequence of resizes and toggles, the mirror still equals the mode |
| `Navigation.RunModeFollowsLastResize` | src/layouts/DefaultLayout.tsx:44-57 | after any sequence of events, the mode is the band of the last resize's width, or the initial mode if there was no resize |
| `Navigation.RunWithoutResize` | src/layouts/DefaultLayout.tsx:89-92 | with toggles only, the mode and mirror stay put, and the navigation's open state is unchanged exactly when the number of toggles is even |
| `Navigation.RunDispatchesOncePerToggle` | src/layouts/DefaultLayout.tsx:89-92 | after any sequence of events there is exactly one more dispatched action per toggle; earlier actions are kept |
| `LayoutShell.ShieldedRoot.constructor` | src/layouts/DefaultLayout.tsx:35-42 | the object's state is `Init` of the client width and satisfies the mirror invariant |
| `LayoutShell.ShieldedRoot.NavResizeListener` | src/layouts/DefaultLayout.tsx:43-59 | the new state is `Resize` of the old state and the width; the mirror invariant is kept |
| `LayoutShell.ShieldedRoot.OnNavToggle` | src/layouts/DefaultLayout.tsx:89-92 | the new state is `Toggle` of the old state; the mirror invariant is kept |
| `Render.RenderShieldedRoot` | src/layouts/DefaultLayout.tsx:70-109 | renders nothing exactly when `initialized` is not true. With `hideNav` true there is neither a toggle button nor a sidebar; otherwise both show the open state. The filter bar is present exactly when `isGlobalFilterEnabled` is true, and it is keyed by the bundle. The account banner and its style class are present exactly when the cookie value is non-empty, and the banner shows that value |
| `RootApp.IsGlobalFilterAllowed` | src/layouts/DefaultLayout.tsx:117-123 | true for bundle "insights" with any app; for bundle "ansible", true exactly when the app is "inventory", "drift" or "advisor"; false for every other bundle |
| `RootApp.HideNav` | src/layouts/DefaultLayout.tsx:135 | hidden when the session user is absent or the sidebar is absent, and shown only when both are present |
| `RootApp.IsLanding` | src/layouts/DefaultLayout.tsx:142 | the landing page is the root path "/" exactly: a one-character path made of the slash, and no other path such as "" or "/insights" |
| `RootApp.GlobalFilterAllowed` | src/layouts/DefaultLayout.tsx:144 | `globalFilterRemoved` forces it true; not hidden and allow-listed makes it true; it is true only in one of these two cases |
| `RootApp.IsGlobalFilterEnabled` | src/layouts/DefaultLayout.tsx:142-146 | false whenever `IsLanding` holds of the path. Elsewhere it is true when the filter is allowed or the local override is non-empty, and it is true only then |
| `RootApp.RenderRootApp` | src/layouts/DefaultLayout.tsx:131-153 | renders nothing exactly when the platform is not initialised. Without a session user or a sidebar there is neither a toggle button nor a sidebar; with both, both are shown. There is never a filter bar on the landing page, and elsewhere there is one exactly when `IsGlobalFilterEnabled` holds |
| `RootApp.InsightsShowsFilter` | src/layouts/DefaultLayout.tsx:117-120 | outside "/", the "insights" bundle with the filter not hidden always enables the filter bar |
| `RootApp.AnsibleFilterGate` | src/layouts/DefaultLayout.tsx:122 | for bundle "ansible" outside "/", with the filter neither hidden nor removed, the bar is on exactly for the three listed apps or when the override is set |
| `RootApp.OverrideIsTruthiness` | src/layouts/DefaultLayout.tsx:146 | outside the landing page, any non-empty stored override, "false" and "0" included, enables the filter bar, because only its truthiness is read; a missing or empty override leaves the decision to `GlobalFilterAllowed` |

## Left out

- Memoisation of `ShieldedRoot` with a deep-equality comparison of props (lines 32, 112) is rendering-framework behaviour. The model recomputes the render from its inputs each time.
- Registering and removing the resize listener (lines 63-68) is host I/O. The model has no unmounted state, so it does not state that resizes after unmount have no effect. Reading `document.body.clientWidth` is replaced by a width argument.
- React's batching of state updates is left out. `NavResizeListener` updates the mode, the open state and the mirror together. In the source the first two are committed on the next render, and the mirror is written at once.
- The Redux store, the micro-frontend runtime, the router, `getUrl`, `Cookie.get` and `localStorage.getItem` are external reads. Their results are parameters. The store's reducer for `onToggle()` is not part of this model; only the dispatch is recorded.
- Presentation is not modelled: the PatternFly components, CSS class composition (apart from the account-banner class), the `.scss` imports, the OUIA tags, the localised banner text, and the contents of `Header`, `GlobalFilter`, `RedirectBanner` and `Routes`. The `Sidebar` node is reduced to whether it is truthy.
- `hasBanner` (line 75) is the constant `false`, so the class it controls never appears.

/**
 * What the layout shell puts on the page, as a value. The header, the
 * redirect banner and the routed content are part of every page and carry
 * no choice, so a `Page` stands for them; the record keeps the parts whose
 * presence depends on the configuration and the state.
 */
module Render {
  import opened Wrappers
  import opened JsValues

  /** The shell's configuration; each prop may be left undefined. */
  datatype ShieldedRootProps = ShieldedRootProps(
    hideNav: Option<bool>,
    isGlobalFilterEnabled: Option<bool>,
    initialized: Option<bool>)

  datatype PageView = PageView(
    /** The masthead toggle button, with the open state it shows. */
    toggleButton: Option<bool>,
    /** The side navigation, with the open state it is given. */
    sidebar: Option<bool>,
    /** The global filter bar, with the key it is mounted under. */
    globalFilter: Option<string>,
    /** The "viewing as account" banner, with the account number shown. */
    accountBanner: Option<string>,
    /** Whether the page carries the account-banner style class. */
    accountBannerClass: bool)

  datatype Rendered = Nothing | Page(view: PageView)

  /**
   * The shell's render: nothing before platform initialisation; otherwise
   * a page whose navigation chrome, filter bar and account banner follow the
   * props, the open state, the product bundle and the cross-account cookie.
   */
  function RenderShieldedRoot(props: ShieldedRootProps, isNavOpen: bool, bundle: string,
                              selectedAccountNumber: Option<string>): (r: Rendered)
    ensures r == Nothing <==> !IsTrue(props.initialized)
    ensures r.Page? && IsTrue(props.hideNav) ==>
              r.view.toggleButton == None && r.view.sidebar == None
    ensures r.Page? && !IsTrue(props.hideNav) ==>
              r.view.toggleButton == Some(isNavOpen) && r.view.sidebar == Some(isNavOpen)
    ensures r.Page? ==>
              (r.view.globalFilter != None <==> IsTrue(props.isGlobalFilterEnabled))
    ensures r.Page? && r.view.globalFilter != None ==> r.view.globalFilter == Some(bundle)
    ensures r.Page? ==>
              (r.view.accountBanner != None <==> IsNonEmpty(selectedAccountNumber)) &&
              (r.view.accountBanner != None ==> r.view.accountBanner == selectedAccountNumber) &&
              r.view.accountBannerClass == IsNonEmpty(selectedAccountNumber)
  {
    if !IsTrue(props.initialized) then
      Nothing
    else
      var hideNav := IsTrue(props.hideNav);
      var hasAccount := IsNonEmpty(selectedAccountNumber);
      Page(PageView(
        toggleButton := if hideNav then None else Some(isNavOpen),
        sidebar := if hideNav then None else Some(isNavOpen),
        globalFilter := if IsTrue(props.isGlobalFilterEnabled) then Some(bundle) else None,
        accountBanner := if hasAccount then selectedAccountNumber else None,
        accountBannerClass := hasAccount))
  }
}

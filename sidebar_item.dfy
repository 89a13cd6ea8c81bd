/**
 * One entry of the admin sidebar (`admin/dashboard/components/SidebarItem.tsx`):
 * a plain link, or a button that opens a submenu under a guard.
 */
module SidebarItem {
  import opened Wrappers

  datatype SubItem = SubItem(title: string, href: string)

  /** The guarded update of `toggleDropdown`: flip only with sub-items and an open sidebar. */
  function Toggled(isOpen: bool, hasSubItems: bool, isSidebarOpen: bool): (r: bool)
    ensures hasSubItems && isSidebarOpen ==> r == !isOpen
    ensures !(hasSubItems && isSidebarOpen) ==> r == isOpen
  {
    if hasSubItems && isSidebarOpen then !isOpen else isOpen
  }

  /** Toggling twice under the same conditions restores the state. */
  lemma ToggleTwice(isOpen: bool, hasSubItems: bool, isSidebarOpen: bool)
    ensures Toggled(Toggled(isOpen, hasSubItems, isSidebarOpen), hasSubItems, isSidebarOpen) == isOpen
  {
  }

  /** How the item renders. */
  datatype Rendered =
    | PlainLink(href: Option<string>)
    | DropdownButton(submenu: Option<seq<SubItem>>)

  /**
   * `subItems ? … : <a href>`: any provided list (even an empty one, which is
   * truthy) makes a dropdown, whose submenu is shown iff the sidebar and the
   * dropdown are both open.
   */
  function Render(subItems: Option<seq<SubItem>>, href: Option<string>, isSidebarOpen: bool, isOpen: bool): (r: Rendered)
    ensures r.PlainLink? <==> subItems.None?
    ensures r.PlainLink? ==> r.href == href
    ensures r.DropdownButton? ==> (r.submenu.Some? <==> isSidebarOpen && isOpen)
    ensures r.DropdownButton? && r.submenu.Some? ==> r.submenu == subItems
  {
    match subItems
    case None => PlainLink(href)
    case Some(items) => DropdownButton(if isSidebarOpen && isOpen then Some(items) else None)
  }

  /** One mounted item. */
  class SidebarItem {
    const subItems: Option<seq<SubItem>>
    const href: Option<string>
    var isOpen: bool

    /** The dropdown starts closed. */
    constructor (subItems: Option<seq<SubItem>>, href: Option<string>)
      ensures this.subItems == subItems && this.href == href && !isOpen
    {
      this.subItems := subItems;
      this.href := href;
      isOpen := false;
    }

    method ToggleDropdown(isSidebarOpen: bool)
      modifies this`isOpen
      ensures isOpen == Toggled(old(isOpen), subItems.Some?, isSidebarOpen)
    {
      if subItems.Some? && isSidebarOpen {
        isOpen := !isOpen;
      }
    }

    function View(isSidebarOpen: bool): Rendered
      reads this
    {
      Render(subItems, href, isSidebarOpen, isOpen)
    }
  }

  /** A link item never opens: every toggle leaves it closed, whatever the sidebar does. */
  lemma LinkNeverOpens(isOpen: bool, isSidebarOpen: bool)
    requires !isOpen
    ensures !Toggled(isOpen, false, isSidebarOpen)
  {
  }
}

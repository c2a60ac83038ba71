/** The editor's UI store: view mode, the two sidebars and the loading flag. */
module UIStore {
  datatype ViewMode = Top | Front | Perspective

  class UIState {
    var viewMode: ViewMode
    var leftSidebarOpen: bool
    var rightSidebarOpen: bool
    var isLoading: bool

    /** Perspective view, both sidebars open, not loading. */
    constructor()
      ensures viewMode == Perspective && leftSidebarOpen && rightSidebarOpen && !isLoading
    {
      viewMode := Perspective;
      leftSidebarOpen := true;
      rightSidebarOpen := true;
      isLoading := false;
    }

    method SetViewMode(mode: ViewMode)
      modifies this
      ensures viewMode == mode
      ensures leftSidebarOpen == old(leftSidebarOpen) && rightSidebarOpen == old(rightSidebarOpen)
      ensures isLoading == old(isLoading)
    {
      viewMode := mode;
    }

    method ToggleLeftSidebar()
      modifies this
      ensures leftSidebarOpen == !old(leftSidebarOpen)
      ensures viewMode == old(viewMode) && rightSidebarOpen == old(rightSidebarOpen)
      ensures isLoading == old(isLoading)
    {
      leftSidebarOpen := !leftSidebarOpen;
    }

    method ToggleRightSidebar()
      modifies this
      ensures rightSidebarOpen == !old(rightSidebarOpen)
      ensures viewMode == old(viewMode) && leftSidebarOpen == old(leftSidebarOpen)
      ensures isLoading == old(isLoading)
    {
      rightSidebarOpen := !rightSidebarOpen;
    }

    method SetLoading(loading: bool)
      modifies this
      ensures isLoading == loading
      ensures viewMode == old(viewMode) && leftSidebarOpen == old(leftSidebarOpen)
      ensures rightSidebarOpen == old(rightSidebarOpen)
    {
      isLoading := loading;
    }
  }

  /** Toggling a sidebar twice restores the whole UI state. */
  method ToggleTwiceRestores(ui: UIState)
    modifies ui
    ensures ui.viewMode == old(ui.viewMode) && ui.isLoading == old(ui.isLoading)
    ensures ui.leftSidebarOpen == old(ui.leftSidebarOpen) && ui.rightSidebarOpen == old(ui.rightSidebarOpen)
  {
    ui.ToggleLeftSidebar();
    ui.ToggleLeftSidebar();
    ui.ToggleRightSidebar();
    ui.ToggleRightSidebar();
  }
}

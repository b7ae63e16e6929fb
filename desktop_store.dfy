/**
 * The process-wide desktop store: the dock applications, the trashed
 * applications and the open windows, each replaced wholesale by its setter.
 */
module DesktopStore {
  import opened Interfaces

  /** The dock contents the store starts with. */
  const InitialNavApps: seq<DesktopApp> :=
    [DesktopApp("store", "Store"), DesktopApp("settings", "Settings")]

  class Store {
    var navApps: seq<DesktopApp>
    var windows: seq<DesktopWindow>
    /** Read and written by the trash window; the store's own declaration omits it. */
    var trashedApps: seq<DesktopApp>

    /**
     * The initial state. The initial trash is not given by the store's
     * declaration, so it is a parameter here.
     */
    constructor (initialTrash: seq<DesktopApp>)
      ensures navApps == InitialNavApps
      ensures windows == []
      ensures trashedApps == initialTrash
    {
      navApps := InitialNavApps;
      windows := [];
      trashedApps := initialTrash;
    }

    method SetWindows(ws: seq<DesktopWindow>)
      modifies this
      ensures windows == ws
      ensures navApps == old(navApps) && trashedApps == old(trashedApps)
    {
      windows := ws;
    }

    method SetNavApps(apps: seq<DesktopApp>)
      modifies this
      ensures navApps == apps
      ensures windows == old(windows) && trashedApps == old(trashedApps)
    {
      navApps := apps;
    }

    method SetTrashedApps(apps: seq<DesktopApp>)
      modifies this
      ensures trashedApps == apps
      ensures windows == old(windows) && navApps == old(navApps)
    {
      trashedApps := apps;
    }
  }
}

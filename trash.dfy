/**
 * The trash window's restore actions, as functions from the dock and trash
 * lists to their new values, and the handlers that hand those values to the
 * store's setters.
 */
module Trash {
  import opened Interfaces
  import DesktopStore

  /** `apps.some(app => app.id === id)` */
  predicate HasId(apps: seq<DesktopApp>, id: string)
  {
    exists i :: 0 <= i < |apps| && apps[i].id == id
  }

  /** No id occurs twice. */
  predicate UniqueIds(apps: seq<DesktopApp>)
  {
    forall i, j :: 0 <= i < j < |apps| ==> apps[i].id != apps[j].id
  }

  /** `apps.find(app => app.id === id)`: the first app with that id. */
  function Find(apps: seq<DesktopApp>, id: string): (r: Option<DesktopApp>)
    ensures r.None? <==> !HasId(apps, id)
    ensures r.Some? ==> r.value.id == id && r.value in apps
    ensures r.Some? ==> exists i :: 0 <= i < |apps| && apps[i] == r.value && !HasId(apps[..i], id)
  {
    if apps == [] then None
    else if apps[0].id == id then
      assert apps[..0] == [];
      Some(apps[0])
    else
      var r := Find(apps[1..], id);
      if r.Some? then
        var i :| 0 <= i < |apps[1..]| && apps[1..][i] == r.value && !HasId(apps[1..][..i], id);
        assert apps[..i + 1] == [apps[0]] + apps[1..][..i];
        r
      else
        r
  }

  /** `apps.filter(app => app.id !== id)` */
  function WithoutId(apps: seq<DesktopApp>, id: string): (r: seq<DesktopApp>)
    ensures forall a :: a in r <==> a in apps && a.id != id
    ensures !HasId(r, id)
    ensures !HasId(apps, id) ==> r == apps
  {
    if apps == [] then []
    else if apps[0].id == id then WithoutId(apps[1..], id)
    else [apps[0]] + WithoutId(apps[1..], id)
  }

  /** The trashed apps whose id is not in the dock, in trash order. */
  function NotInDock(trash: seq<DesktopApp>, nav: seq<DesktopApp>): (r: seq<DesktopApp>)
    ensures forall a :: a in r <==> a in trash && !HasId(nav, a.id)
    ensures |r| <= |trash|
    ensures (forall i :: 0 <= i < |trash| ==> !HasId(nav, trash[i].id)) ==> r == trash
  {
    if trash == [] then []
    else if HasId(nav, trash[0].id) then NotInDock(trash[1..], nav)
    else [trash[0]] + NotInDock(trash[1..], nav)
  }

  /** The filter keeps the order of the kept apps: it distributes over concatenation. */
  lemma {:induction false} WithoutIdAppend(a: seq<DesktopApp>, b: seq<DesktopApp>, id: string)
    ensures WithoutId(a + b, id) == WithoutId(a, id) + WithoutId(b, id)
    decreases |a|
  {
    if a == [] {
      assert a + b == b;
    } else {
      assert (a + b)[0] == a[0];
      assert (a + b)[1..] == a[1..] + b;
      WithoutIdAppend(a[1..], b, id);
    }
  }

  /** The apps to restore keep their trash order: the filter distributes over concatenation. */
  lemma {:induction false} NotInDockAppend(a: seq<DesktopApp>, b: seq<DesktopApp>, nav: seq<DesktopApp>)
    ensures NotInDock(a + b, nav) == NotInDock(a, nav) + NotInDock(b, nav)
    decreases |a|
  {
    if a == [] {
      assert a + b == b;
    } else {
      assert (a + b)[0] == a[0];
      assert (a + b)[1..] == a[1..] + b;
      NotInDockAppend(a[1..], b, nav);
    }
  }

  datatype Lists = Lists(navApps: seq<DesktopApp>, trashedApps: seq<DesktopApp>)

  /** Restore one app: append it to the dock unless its id is there, and drop it from the trash. */
  function Restore(l: Lists, id: string): (r: Lists)
    ensures !HasId(l.trashedApps, id) ==> r == l
    ensures HasId(l.trashedApps, id) ==> !HasId(r.trashedApps, id)
    ensures HasId(l.trashedApps, id) ==> r.trashedApps == WithoutId(l.trashedApps, id)
    ensures HasId(l.navApps, id) ==> r.navApps == l.navApps
    ensures HasId(l.trashedApps, id) && !HasId(l.navApps, id) ==>
      |r.navApps| == |l.navApps| + 1 && r.navApps[..|l.navApps|] == l.navApps
      && r.navApps[|l.navApps|] == Find(l.trashedApps, id).value
    ensures HasId(r.navApps, id) <==> HasId(l.navApps, id) || HasId(l.trashedApps, id)
  {
    match Find(l.trashedApps, id)
    case None => l
    case Some(app) =>
      var nav := if !HasId(l.navApps, id) then l.navApps + [app] else l.navApps;
      assert HasId(l.navApps + [app], id) by {
        assert (l.navApps + [app])[|l.navApps|] == app;
      }
      Lists(nav, WithoutId(l.trashedApps, id))
  }

  /** Restore everything: append the trashed apps missing from the dock, in trash order, and empty the trash. */
  function RestoreAll(l: Lists): (r: Lists)
    ensures l.trashedApps == [] ==> r == l
    ensures r.trashedApps == []
    ensures r.navApps == l.navApps + NotInDock(l.trashedApps, l.navApps)
  {
    if |l.trashedApps| == 0 then l
    else
      var toRestore := NotInDock(l.trashedApps, l.navApps);
      if |toRestore| > 0 then Lists(l.navApps + toRestore, []) else Lists(l.navApps, [])
  }

  /** Restoring one app never duplicates an id in the dock. */
  lemma RestoreKeepsDockUnique(l: Lists, id: string)
    requires UniqueIds(l.navApps)
    ensures UniqueIds(Restore(l, id).navApps)
  {
  }

  /** Dropping the head of a list with unique ids leaves unique ids, none of them the head's. */
  lemma UniqueTail(apps: seq<DesktopApp>)
    requires UniqueIds(apps) && apps != []
    ensures UniqueIds(apps[1..])
    ensures forall a :: a in apps[1..] ==> a.id != apps[0].id
  {
    var rest := apps[1..];
    forall i, j | 0 <= i < j < |rest| ensures rest[i].id != rest[j].id {
      assert rest[i] == apps[i + 1] && rest[j] == apps[j + 1];
    }
    forall a | a in rest ensures a.id != apps[0].id {
      var k :| 0 <= k < |rest| && rest[k] == a;
      assert apps[k + 1] == a;
    }
  }

  /** Putting an app in front of a list with unique ids and none of its id keeps ids unique. */
  lemma UniqueCons(app: DesktopApp, r: seq<DesktopApp>)
    requires UniqueIds(r) && forall a :: a in r ==> a.id != app.id
    ensures UniqueIds([app] + r)
  {
    var s := [app] + r;
    forall i, j | 0 <= i < j < |s| ensures s[i].id != s[j].id {
      if i == 0 {
        assert s[j] == r[j - 1];
      } else {
        assert s[i] == r[i - 1] && s[j] == r[j - 1];
      }
    }
  }

  /** Filtering keeps ids unique. */
  lemma {:induction false} NotInDockUnique(trash: seq<DesktopApp>, nav: seq<DesktopApp>)
    requires UniqueIds(trash)
    ensures UniqueIds(NotInDock(trash, nav))
    decreases |trash|
  {
    if trash != [] {
      UniqueTail(trash);
      NotInDockUnique(trash[1..], nav);
      if !HasId(nav, trash[0].id) {
        UniqueCons(trash[0], NotInDock(trash[1..], nav));
      }
    }
  }

  /** Two lists with unique ids and no id in common concatenate to a list with unique ids. */
  lemma ConcatUnique(a: seq<DesktopApp>, b: seq<DesktopApp>)
    requires UniqueIds(a) && UniqueIds(b)
    requires forall x :: x in b ==> !HasId(a, x.id)
    ensures UniqueIds(a + b)
  {
  }

  /** Restoring everything keeps the dock free of duplicates when the trash has none. */
  lemma RestoreAllKeepsDockUnique(l: Lists)
    requires UniqueIds(l.navApps) && UniqueIds(l.trashedApps)
    ensures UniqueIds(RestoreAll(l).navApps)
  {
    NotInDockUnique(l.trashedApps, l.navApps);
    ConcatUnique(l.navApps, NotInDock(l.trashedApps, l.navApps));
  }

  /** Dropping one id keeps ids unique. */
  lemma {:induction false} WithoutIdUnique(apps: seq<DesktopApp>, id: string)
    requires UniqueIds(apps)
    ensures UniqueIds(WithoutId(apps, id))
    decreases |apps|
  {
    if apps != [] {
      UniqueTail(apps);
      WithoutIdUnique(apps[1..], id);
      if apps[0].id != id {
        UniqueCons(apps[0], WithoutId(apps[1..], id));
      }
    }
  }

  /** Every app sits in at most one of the two lists, at most once. */
  predicate Partitioned(l: Lists)
  {
    && UniqueIds(l.navApps)
    && UniqueIds(l.trashedApps)
    && forall a :: a in l.trashedApps ==> !HasId(l.navApps, a.id)
  }

  /** Restoring one app keeps every app in at most one list. */
  lemma RestorePreservesPartition(l: Lists, id: string)
    requires Partitioned(l)
    ensures Partitioned(Restore(l, id))
  {
    var r := Restore(l, id);
    RestoreKeepsDockUnique(l, id);
    var found := Find(l.trashedApps, id);
    if found.Some? {
      WithoutIdUnique(l.trashedApps, id);
      forall a | a in r.trashedApps ensures !HasId(r.navApps, a.id) {
        assert a in l.trashedApps && a.id != id;
      }
    }
  }

  /** Restoring everything empties the trash, so the partition holds. */
  lemma RestoreAllPreservesPartition(l: Lists)
    requires Partitioned(l)
    ensures Partitioned(RestoreAll(l))
  {
    RestoreAllKeepsDockUnique(l);
  }

  /** Restore-all does not de-duplicate within the trash: two trashed copies both reach the dock. */
  lemma RestoreAllKeepsTrashDuplicates(app: DesktopApp)
    ensures RestoreAll(Lists([], [app, app])).navApps == [app, app]
  {
  }

  /** Dock [B, C] and trash [A]: restore-all gives dock [B, C, A] and an empty trash. */
  lemma RestoreAllScenario(a: DesktopApp, b: DesktopApp, c: DesktopApp)
    requires a.id != b.id && a.id != c.id
    ensures RestoreAll(Lists([b, c], [a])) == Lists([b, c, a], [])
  {
  }

  /** The trash window's restore button for one app. */
  method HandleRestore(store: DesktopStore.Store, appId: string)
    modifies store
    ensures var r := Restore(Lists(old(store.navApps), old(store.trashedApps)), appId);
            store.navApps == r.navApps && store.trashedApps == r.trashedApps
    ensures store.windows == old(store.windows)
  {
    var appToRestore := Find(store.trashedApps, appId);
    if appToRestore.None? {
      return;
    }
    if !HasId(store.navApps, appId) {
      store.SetNavApps(store.navApps + [appToRestore.value]);
    }
    store.SetTrashedApps(WithoutId(store.trashedApps, appId));
  }

  /** The trash window's restore-all button. */
  method HandleRestoreAll(store: DesktopStore.Store)
    modifies store
    ensures var r := RestoreAll(Lists(old(store.navApps), old(store.trashedApps)));
            store.navApps == r.navApps && store.trashedApps == r.trashedApps
    ensures store.windows == old(store.windows)
  {
    if |store.trashedApps| == 0 {
      return;
    }
    var appsToRestore := NotInDock(store.trashedApps, store.navApps);
    if |appsToRestore| > 0 {
      store.SetNavApps(store.navApps + appsToRestore);
    }
    store.SetTrashedApps([]);
  }
}

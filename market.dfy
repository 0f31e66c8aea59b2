/**
 * The Market screen (MarketApp in components/Apps.tsx): a tap on an installed app opens
 * it; a tap on an uninstalled one marks it downloading and starts a two-second timer
 * whose expiry installs it.
 */
module Market {
  import opened Wrappers
  import opened Catalog
  import DeviceApp

  /** A system app in front of `apps` is not listed: `rest`, the list for the tail, is the list for `apps`. */
  lemma SkipSystem(apps: seq<AppDefinition>, rest: seq<AppDefinition>)
    requires apps != [] && apps[0].system
    requires IsSubsequence(rest, apps[1..])
    requires forall a :: multiset(rest)[a] == if a.system then 0 else multiset(apps[1..])[a]
    requires forall a :: a in rest <==> a in apps[1..] && !a.system
    ensures IsSubsequence(rest, apps)
    ensures forall a :: multiset(rest)[a] == if a.system then 0 else multiset(apps)[a]
    ensures forall a :: a in rest <==> a in apps && !a.system
  {
    assert apps == [apps[0]] + apps[1..];
    assert multiset(apps) == multiset{apps[0]} + multiset(apps[1..]);
    assert rest != [] ==> rest[0] in rest;
    SubsequenceSkip(rest, apps[1..], apps[0]);
  }

  /** Any other app in front of `apps` is listed in front of `rest`, the list for the tail. */
  lemma ListFirst(apps: seq<AppDefinition>, rest: seq<AppDefinition>)
    requires apps != [] && !apps[0].system
    requires IsSubsequence(rest, apps[1..])
    requires forall a :: multiset(rest)[a] == if a.system then 0 else multiset(apps[1..])[a]
    requires forall a :: a in rest <==> a in apps[1..] && !a.system
    requires |rest| < |apps|
    ensures IsSubsequence([apps[0]] + rest, apps)
    ensures forall a :: multiset([apps[0]] + rest)[a] == if a.system then 0 else multiset(apps)[a]
    ensures forall a :: a in [apps[0]] + rest <==> a in apps && !a.system
    ensures |[apps[0]] + rest| <= |apps|
  {
    assert apps == [apps[0]] + apps[1..];
    assert multiset(apps) == multiset{apps[0]} + multiset(apps[1..]);
    assert multiset([apps[0]] + rest) == multiset{apps[0]} + multiset(rest);
    SubsequenceKeep(rest, apps[1..], apps[0]);
  }

  /** The apps the screen lists: the catalog without its system apps, in catalog order. */
  function Listed(apps: seq<AppDefinition>): (r: seq<AppDefinition>)
    ensures IsSubsequence(r, apps)
    ensures forall a :: multiset(r)[a] == if a.system then 0 else multiset(apps)[a]
    ensures forall a :: a in r <==> a in apps && !a.system
    ensures |r| <= |apps|
  {
    if apps == [] then []
    else
      var rest := Listed(apps[1..]);
      if apps[0].system then
        SkipSystem(apps, rest);
        rest
      else
        ListFirst(apps, rest);
        [apps[0]] + rest
  }

  class MarketScreen {
    /** The id whose button shows "..." and is disabled. */
    var downloading: Option<string>
    /** The ids whose download timers are still running, oldest first. */
    var pending: seq<string>

    constructor ()
      ensures downloading == None && pending == []
    {
      downloading := None;
      pending := [];
    }

    /** handleAction: the button of a listed app; a disabled button does nothing. */
    method Tap(device: DeviceApp.Controller, app: AppDefinition)
      requires device.Valid()
      requires app in Listed(device.apps)
      modifies this, device`app
      ensures device.Valid()
      ensures old(downloading) == Some(app.id) ==>
        downloading == old(downloading) && pending == old(pending) && device.app == old(device.app)
      ensures old(downloading) != Some(app.id) && app.installed ==>
        device.app == Some(app.id) && downloading == old(downloading) && pending == old(pending)
      ensures old(downloading) != Some(app.id) && !app.installed ==>
        downloading == Some(app.id) && pending == old(pending) + [app.id] && device.app == old(device.app)
    {
      if downloading == Some(app.id) {
        return;
      }
      if app.installed {
        device.OpenApp(app.id);
      } else {
        downloading := Some(app.id);
        pending := pending + [app.id];
      }
    }

    /** The oldest download timer expires: the app is installed and no button shows "...". */
    method DownloadDone(device: DeviceApp.Controller)
      requires device.Valid()
      requires pending != []
      modifies this, device`apps
      ensures device.Valid()
      ensures device.apps == Install(old(device.apps), old(pending)[0])
      ensures pending == old(pending)[1..] && downloading == None
    {
      device.InstallApp(pending[0]);
      downloading := None;
      pending := pending[1..];
    }
  }

  /** The download leaves the catalog as long as it was, with the downloaded app installed. */
  lemma DownloadInstalls(apps: seq<AppDefinition>, app: AppDefinition)
    requires app in Listed(apps)
    ensures var r := Install(apps, app.id);
      |r| == |apps| && app.(installed := true) in Listed(r)
  {
    var i :| 0 <= i < |apps| && apps[i] == app;
    var r := Install(apps, app.id);
    assert r[i] == app.(installed := true);
  }
}

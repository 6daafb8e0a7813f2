/**
 * `get_running_meeting_apps`: the running applications that are meeting clients, from
 * the list ScreenCaptureKit reports.
 */
module Discovery {
  import opened Wrappers

  /** The fields of an `SCRunningApplication` the filter reads. */
  datatype Application = Application(bundle_identifier: Option<string>, process_id: int,
                                     application_name: Option<string>)

  datatype RunnableApp = RunnableApp(id: string, pid: int, name: string, icon: seq<bv8>)

  const TargetBundleIds: seq<string> := ["us.zoom.xos", "com.tinyspeck.slackmacgap",
                                         "com.microsoft.teams", "com.microsoft.teams2"]

  predicate IsMeetingApp(a: Application) {
    a.bundle_identifier.Some? && a.bundle_identifier.value in TargetBundleIds
  }

  function AsRunnable(a: Application): (r: RunnableApp)
    requires a.bundle_identifier.Some?
    ensures r.id == a.bundle_identifier.value && r.pid == a.process_id && r.icon == []
    ensures r.name == a.application_name.GetOr("")
  {
    RunnableApp(a.bundle_identifier.value, a.process_id, a.application_name.GetOr(""), [])
  }

  /** The meeting apps among `apps`, in order. */
  function MeetingApps(apps: seq<Application>): (r: seq<RunnableApp>)
    ensures |r| <= |apps|
    ensures forall j :: 0 <= j < |r| ==> r[j].id in TargetBundleIds && r[j].icon == []
    decreases |apps|
  {
    if apps == [] then []
    else
      var last := apps[|apps| - 1];
      MeetingApps(apps[..|apps| - 1]) + (if IsMeetingApp(last) then [AsRunnable(last)] else [])
  }

  /** The filter works element by element, keeping order: the result for a
      concatenation is the concatenation of the results. */
  lemma {:induction false} MeetingAppsConcat(a: seq<Application>, b: seq<Application>)
    ensures MeetingApps(a + b) == MeetingApps(a) + MeetingApps(b)
    decreases |b|
  {
    if b == [] {
      assert a + b == a;
    } else {
      var front := b[..|b| - 1];
      assert (a + b)[..|a + b| - 1] == a + front;
      MeetingAppsConcat(a, front);
    }
  }

  /** One application contributes itself exactly when it is a meeting client. */
  lemma MeetingAppsSingle(x: Application)
    ensures MeetingApps([x]) == if IsMeetingApp(x) then [AsRunnable(x)] else []
  {
    assert [x][..0] == [];
  }

  /** Applications that are not meeting clients (among them those without a bundle id)
      do not affect the result. */
  lemma OthersIgnored(a: seq<Application>, x: Application, b: seq<Application>)
    requires !IsMeetingApp(x)
    ensures MeetingApps(a + [x] + b) == MeetingApps(a + b)
  {
    MeetingAppsConcat(a + [x], b);
    MeetingAppsConcat(a, [x]);
    MeetingAppsSingle(x);
    MeetingAppsConcat(a, b);
  }

  /** Every meeting client in the input is listed, and everything listed is one. */
  lemma {:induction false} MeetingAppsMembers(apps: seq<Application>)
    ensures forall a :: a in apps && IsMeetingApp(a) ==> AsRunnable(a) in MeetingApps(apps)
    ensures forall x :: x in MeetingApps(apps) ==> exists a :: a in apps && IsMeetingApp(a) && x == AsRunnable(a)
    decreases |apps|
  {
    if apps != [] {
      var front := apps[..|apps| - 1];
      var last := apps[|apps| - 1];
      MeetingAppsMembers(front);
      assert apps == front + [last];
      assert MeetingApps(apps) == MeetingApps(front) + (if IsMeetingApp(last) then [AsRunnable(last)] else []);
    }
  }

  /** `get_running_meeting_apps`, and it always succeeds. */
  method GetRunningMeetingApps(applications: seq<Application>) returns (r: Result<seq<RunnableApp>, string>)
    ensures r == Ok(MeetingApps(applications))
  {
    var apps: seq<RunnableApp> := [];
    for i := 0 to |applications|
      invariant apps == MeetingApps(applications[..i])
    {
      var app := applications[i];
      assert applications[..i + 1][..i] == applications[..i];
      if app.bundle_identifier.Some? {
        var bundleId := app.bundle_identifier.value;
        if bundleId in TargetBundleIds {
          apps := apps + [RunnableApp(bundleId, app.process_id, app.application_name.GetOr(""), [])];
        }
      }
    }
    assert applications[..|applications|] == applications;
    r := Ok(apps);
  }
}

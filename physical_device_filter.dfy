/** `SelectPhysicalDevices` of the gvw/ context (`gvw::gvw`) and of the src/
    `instance`: drop the physical devices that support none of the candidate
    surface formats or present modes, hand the rest to the user's selector, and
    make one logical device per selected entry, in order.

    The two revisions differ in one place: with a surface and no caller list,
    the gvw/ revision falls back to the device's own list, while the src/
    revision calls `.value()` on the absent optional (its fallback is commented
    out), which throws `std::bad_optional_access`. */
module PhysicalDeviceFilter {
  import opened Wrappers
  import DS = DeviceSelection
  import opened VulkanArrays

  datatype Revision = GvwRevision | SrcRevision

  /** What one physical device answers to the surface queries. */
  datatype DeviceAnswers = DeviceAnswers(handle: nat, surfaceFormats: seq<DS.SurfaceFormat>, presentModes: seq<DS.PresentMode>)

  /** The caller's `device_info` / `device_selection_info`: candidate lists,
      logical-device extensions and the physical-device features (opaque). */
  datatype Request = Request(
    surfaceFormats: Option<seq<DS.SurfaceFormat>>,
    presentModes: Option<seq<DS.PresentMode>>,
    logicalDeviceExtensions: seq<string>,
    features: nat)

  /** One `device_selection_parameter` handed to the selector. */
  datatype Candidate = Candidate(device: nat, surfaceFormats: Option<seq<DS.SurfaceFormat>>, presentModes: Option<seq<DS.PresentMode>>)

  /** What one logical device is created from. */
  datatype LogicalDeviceRequest = LogicalDeviceRequest(
    selection: DS.Selection,
    logicalDeviceExtensions: seq<string>,
    features: nat)

  /** Each reported error stops the call; `BadOptionalAccess` is the exception. */
  datatype SelectError = NoPhysicalDevices | NoCompatibleDevices | NoneSelected | BadOptionalAccess

  /** The list to filter when a surface is given: the caller's list, else (gvw/ only) the device's. */
  function CandidateList<T>(rev: Revision, requested: Option<seq<T>>, deviceList: seq<T>): (r: Result<seq<T>, SelectError>)
    ensures requested.Some? ==> r == Success(requested.value)
    ensures requested.None? && rev.GvwRevision? ==> r == Success(deviceList)
    ensures r.Failure? <==> requested.None? && rev.SrcRevision?
    ensures r.Failure? ==> r.error == BadOptionalAccess
  {
    match requested
    case Some(l) => Success(l)
    case None => if rev.GvwRevision? then Success(deviceList) else Failure(BadOptionalAccess)
  }

  /** One pass of the device loop: `Some` when the device is kept, `None` on `continue`. */
  function Filter(rev: Revision, req: Request, hasSurface: bool, d: DeviceAnswers): (r: Result<Option<Candidate>, SelectError>)
    ensures !hasSurface ==> r == Success(Some(Candidate(d.handle, req.surfaceFormats, req.presentModes)))
    ensures rev == GvwRevision ==> r.Success?
    ensures r.Failure? ==> r.error == BadOptionalAccess
    ensures hasSurface && r.Success? && r.value.Some? ==>
              var c := r.value.value;
              && c.device == d.handle && c.surfaceFormats.Some? && c.presentModes.Some?
              && |c.surfaceFormats.value| > 0 && |c.presentModes.value| > 0
              && (forall f :: f in c.surfaceFormats.value ==> f in d.surfaceFormats)
              && (forall m :: m in c.presentModes.value ==> m in d.presentModes)
              && (req.surfaceFormats.Some? ==> forall f :: f in c.surfaceFormats.value ==> f in req.surfaceFormats.value)
              && (req.presentModes.Some? ==> forall m :: m in c.presentModes.value ==> m in req.presentModes.value)
    ensures hasSurface && rev == SrcRevision ==>
              (r.Failure? <==> req.surfaceFormats.None?
                               || (Offers(req.surfaceFormats.value, d.surfaceFormats) && req.presentModes.None?))
    ensures hasSurface && r.Success? ==>
              var formats, modes := req.surfaceFormats.GetOr(d.surfaceFormats), req.presentModes.GetOr(d.presentModes);
              && (r.value.Some? <==> Offers(formats, d.surfaceFormats) && Offers(modes, d.presentModes))
              && (r.value.Some? ==>
                    r.value.value == Candidate(d.handle, Some(FoundIn(formats, d.surfaceFormats)), Some(FoundIn(modes, d.presentModes))))
  {
    FoundSomethingIffOffered(req.surfaceFormats.GetOr(d.surfaceFormats), d.surfaceFormats);
    FoundSomethingIffOffered(req.presentModes.GetOr(d.presentModes), d.presentModes);
    if !hasSurface then Success(Some(Candidate(d.handle, req.surfaceFormats, req.presentModes)))
    else
      match CandidateList(rev, req.surfaceFormats, d.surfaceFormats)
      case Failure(e) => Failure(e)
      case Success(formats) =>
        var keptFormats := FoundIn(formats, d.surfaceFormats);
        if |keptFormats| == 0 then Success(None)
        else
          match CandidateList(rev, req.presentModes, d.presentModes)
          case Failure(e) => Failure(e)
          case Success(modes) =>
            var keptModes := FoundIn(modes, d.presentModes);
            if |keptModes| == 0 then Success(None)
            else Success(Some(Candidate(d.handle, Some(keptFormats), Some(keptModes))))
  }

  /** The compatible devices, in the enumeration order; the first exception stops the loop. */
  function Compatible(rev: Revision, req: Request, hasSurface: bool, ds: seq<DeviceAnswers>): (r: Result<seq<Candidate>, SelectError>)
    ensures r.Failure? ==> r.error == BadOptionalAccess
    decreases |ds|
  {
    if |ds| == 0 then Success([])
    else match Filter(rev, req, hasSurface, ds[|ds| - 1])
      case Failure(e) => Failure(e)
      case Success(kept) =>
        match Compatible(rev, req, hasSurface, ds[..|ds| - 1])
        case Failure(e) => Failure(e)
        case Success(cs) => Success(cs + (if kept.Some? then [kept.value] else []))
  }

  /** Without a surface every device is kept, with the caller's lists untouched. */
  lemma {:induction false} CompatibleWithoutSurface(rev: Revision, req: Request, ds: seq<DeviceAnswers>)
    ensures Compatible(rev, req, false, ds).Success?
    ensures var cs := Compatible(rev, req, false, ds).value;
            && |cs| == |ds|
            && forall i :: 0 <= i < |ds| ==> cs[i] == Candidate(ds[i].handle, req.surfaceFormats, req.presentModes)
    decreases |ds|
  {
    if |ds| > 0 {
      CompatibleWithoutSurface(rev, req, ds[..|ds| - 1]);
    }
  }

  /** The gvw/ revision never throws while filtering. */
  lemma {:induction false} GvwFilteringSucceeds(req: Request, hasSurface: bool, ds: seq<DeviceAnswers>)
    ensures Compatible(GvwRevision, req, hasSurface, ds).Success?
    decreases |ds|
  {
    if |ds| > 0 {
      GvwFilteringSucceeds(req, hasSurface, ds[..|ds| - 1]);
    }
  }

  /** Every kept device is one that was enumerated, and with a surface it keeps
      only formats and modes it supports, at least one of each. */
  lemma {:induction false} CompatibleAreSupported(rev: Revision, req: Request, ds: seq<DeviceAnswers>)
    requires Compatible(rev, req, true, ds).Success?
    ensures forall c :: c in Compatible(rev, req, true, ds).value ==>
              exists i :: 0 <= i < |ds| && Filter(rev, req, true, ds[i]) == Success(Some(c))
    decreases |ds|
  {
    if |ds| > 0 {
      var init := ds[..|ds| - 1];
      CompatibleAreSupported(rev, req, init);
      forall c | c in Compatible(rev, req, true, ds).value
        ensures exists i :: 0 <= i < |ds| && Filter(rev, req, true, ds[i]) == Success(Some(c))
      {
        if c in Compatible(rev, req, true, init).value {
          var i :| 0 <= i < |init| && Filter(rev, req, true, init[i]) == Success(Some(c));
          assert ds[i] == init[i];
        } else {
          assert Filter(rev, req, true, ds[|ds| - 1]) == Success(Some(c));
        }
      }
    }
  }

  /** Filtering two runs of devices one after the other: the whole succeeds
      exactly when both runs do, and then its compatible list is the two lists
      joined, so kept devices stay in enumeration order. */
  lemma {:induction false} CompatibleConcat(rev: Revision, req: Request, hasSurface: bool, a: seq<DeviceAnswers>, b: seq<DeviceAnswers>)
    ensures Compatible(rev, req, hasSurface, a + b).Success? <==>
              Compatible(rev, req, hasSurface, a).Success? && Compatible(rev, req, hasSurface, b).Success?
    ensures Compatible(rev, req, hasSurface, a + b).Success? ==>
              Compatible(rev, req, hasSurface, a + b).value
                == Compatible(rev, req, hasSurface, a).value + Compatible(rev, req, hasSurface, b).value
    decreases |b|
  {
    if |b| == 0 {
      assert a + b == a;
    } else {
      var init := b[..|b| - 1];
      assert (a + b)[..|a + b| - 1] == a + init;
      assert (a + b)[|a + b| - 1] == b[|b| - 1];
      CompatibleConcat(rev, req, hasSurface, a, init);
      match Filter(rev, req, hasSurface, b[|b| - 1])
      case Failure(_) =>
      case Success(kept) =>
        if Compatible(rev, req, hasSurface, a + init).Success? {
          var k := if kept.Some? then [kept.value] else [];
          assert Compatible(rev, req, hasSurface, a + b).value == Compatible(rev, req, hasSurface, a + init).value + k;
          assert Compatible(rev, req, hasSurface, b).value == Compatible(rev, req, hasSurface, init).value + k;
        }
    }
  }

  /** Every enumerated device that passes the filter is in the compatible list. */
  lemma PassingDeviceIsKept(rev: Revision, req: Request, hasSurface: bool, ds: seq<DeviceAnswers>, i: nat)
    requires i < |ds|
    requires Compatible(rev, req, hasSurface, ds).Success?
    requires Filter(rev, req, hasSurface, ds[i]).Success? && Filter(rev, req, hasSurface, ds[i]).value.Some?
    ensures Filter(rev, req, hasSurface, ds[i]).value.value in Compatible(rev, req, hasSurface, ds).value
  {
    var front, rest := ds[..i], ds[i + 1..];
    assert ds == front + ([ds[i]] + rest);
    CompatibleConcat(rev, req, hasSurface, front, [ds[i]] + rest);
    CompatibleConcat(rev, req, hasSurface, [ds[i]], rest);
    assert [ds[i]][..0] == [];
    assert Compatible(rev, req, hasSurface, [ds[i]]).value == [Filter(rev, req, hasSurface, ds[i]).value.value];
  }

  /** The loop over the physical devices: each one is filtered in turn, the
      first error stops the loop, and the kept candidates are collected in order. */
  method FilterDevices(rev: Revision, req: Request, hasSurface: bool, ds: seq<DeviceAnswers>)
    returns (r: Result<seq<Candidate>, SelectError>)
    ensures r == Compatible(rev, req, hasSurface, ds)
  {
    var compatible: seq<Candidate> := [];
    for i := 0 to |ds|
      invariant Compatible(rev, req, hasSurface, ds[..i]) == Success(compatible)
    {
      assert ds[..i + 1][..i] == ds[..i];
      var kept := Filter(rev, req, hasSurface, ds[i]);
      if kept.Failure? {
        assert Compatible(rev, req, hasSurface, ds[..i + 1]).Failure?;
        FailureIsFinal(rev, req, hasSurface, ds, i + 1);
        return Failure(kept.error);
      }
      if kept.value.None? {
        assert compatible + [] == compatible;
        continue;
      }
      compatible := compatible + [kept.value.value];
    }
    assert ds[..|ds|] == ds;
    r := Success(compatible);
  }

  /** `SelectPhysicalDevices`. `selector` is the caller's
      `selectPhysicalDevicesAndQueues`, given the compatible devices and whether
      there is a surface. Every selected entry gets the caller's extensions and
      features. */
  method SelectPhysicalDevices(rev: Revision, req: Request, hasSurface: bool, ds: seq<DeviceAnswers>,
                               selector: (seq<Candidate>, bool) -> seq<DS.Selection>)
    returns (r: Result<seq<LogicalDeviceRequest>, SelectError>)
    ensures |ds| == 0 ==> r == Failure(NoPhysicalDevices)
    ensures |ds| > 0 && Compatible(rev, req, hasSurface, ds).Failure? ==> r == Failure(Compatible(rev, req, hasSurface, ds).error)
    ensures |ds| > 0 && Compatible(rev, req, hasSurface, ds) == Success([]) ==> r == Failure(NoCompatibleDevices)
    ensures |ds| > 0 && Compatible(rev, req, hasSurface, ds).Success? && |Compatible(rev, req, hasSurface, ds).value| > 0 ==>
              var selected := selector(Compatible(rev, req, hasSurface, ds).value, hasSurface);
              && (|selected| == 0 ==> r == Failure(NoneSelected))
              && (|selected| > 0 ==>
                    && r.Success? && |r.value| == |selected|
                    && forall i :: 0 <= i < |selected| ==>
                         r.value[i] == LogicalDeviceRequest(selected[i], req.logicalDeviceExtensions, req.features))
  {
    if |ds| == 0 {
      return Failure(NoPhysicalDevices);
    }
    var filtered := FilterDevices(rev, req, hasSurface, ds);
    if filtered.Failure? {
      return Failure(filtered.error);
    }
    var compatible := filtered.value;
    if |compatible| == 0 {
      return Failure(NoCompatibleDevices);
    }
    var selected := selector(compatible, hasSurface);
    if |selected| == 0 {
      return Failure(NoneSelected);
    }
    var devices: seq<LogicalDeviceRequest> := [];
    for i := 0 to |selected|
      invariant |devices| == i
      invariant forall j :: 0 <= j < i ==> devices[j] == LogicalDeviceRequest(selected[j], req.logicalDeviceExtensions, req.features)
    {
      devices := devices + [LogicalDeviceRequest(selected[i], req.logicalDeviceExtensions, req.features)];
    }
    r := Success(devices);
  }

  /** Once a prefix of the devices throws, the whole loop throws the same error. */
  lemma {:induction false} FailureIsFinal(rev: Revision, req: Request, hasSurface: bool, ds: seq<DeviceAnswers>, n: nat)
    requires n <= |ds|
    requires Compatible(rev, req, hasSurface, ds[..n]).Failure?
    ensures Compatible(rev, req, hasSurface, ds) == Compatible(rev, req, hasSurface, ds[..n])
    decreases |ds| - n
  {
    if n == |ds| {
      assert ds[..n] == ds;
    } else {
      assert ds[..n + 1][..n] == ds[..n];
      var kept := Filter(rev, req, hasSurface, ds[n]);
      assert Compatible(rev, req, hasSurface, ds[..n + 1]) == Compatible(rev, req, hasSurface, ds[..n]);
      FailureIsFinal(rev, req, hasSurface, ds, n + 1);
    }
  }
}

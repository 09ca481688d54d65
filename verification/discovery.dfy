/**
 Speaker lookup, `find_speakers` in soya.py: the device with a given player name,
 provided exactly one discovered device carries that name.
 */
module Discovery {
  import opened Optional
  import opened Devices

  /** The devices named `name`, in discovery order (the source's `filter`). */
  function Named(devices: seq<Device>, name: string): (r: seq<Device>)
    ensures |r| <= |devices|
    // it keeps exactly the devices of the list that carry the name
    ensures forall d :: d in r ==> d in devices && d.name == name
    ensures forall i :: 0 <= i < |devices| && devices[i].name == name ==> devices[i] in r
    decreases |devices|
  {
    if |devices| == 0 then []
    else
      var last := devices[|devices| - 1];
      Named(devices[..|devices| - 1], name) + (if last.name == name then [last] else [])
  }

  /** `i` is the one and only position of `devices` whose name is `name`. */
  predicate UniqueAt(devices: seq<Device>, name: string, i: int) {
    && 0 <= i < |devices|
    && devices[i].name == name
    && forall j :: 0 <= j < |devices| && j != i ==> devices[j].name != name
  }

  lemma {:induction false} NoneNamed(devices: seq<Device>, name: string)
    ensures |Named(devices, name)| == 0 <==> forall j :: 0 <= j < |devices| ==> devices[j].name != name
    decreases |devices|
  {
    if |devices| > 0 {
      var init := devices[..|devices| - 1];
      NoneNamed(init, name);
      assert forall j :: 0 <= j < |init| ==> init[j] == devices[j];
    }
  }

  /** The filter has exactly one element precisely when exactly one position holds the name,
      and that element is the device at that position. */
  lemma {:induction false} OneNamed(devices: seq<Device>, name: string)
    ensures |Named(devices, name)| == 1 <==> exists i :: UniqueAt(devices, name, i)
    ensures forall i :: UniqueAt(devices, name, i) ==> Named(devices, name) == [devices[i]]
    decreases |devices|
  {
    if |devices| > 0 {
      var n := |devices| - 1;
      OneNamed(devices[..n], name);
      NoneNamed(devices[..n], name);
      if devices[n].name == name {
        LastNamed(devices, name);
      } else {
        LastNotNamed(devices, name);
      }
    }
  }

  /** The step of `OneNamed` when the last device carries the name. */
  lemma LastNamed(devices: seq<Device>, name: string)
    requires |devices| > 0 && devices[|devices| - 1].name == name
    requires var init := devices[..|devices| - 1];
             |Named(init, name)| == 0 <==> forall j :: 0 <= j < |init| ==> init[j].name != name
    ensures |Named(devices, name)| == 1 <==> exists i :: UniqueAt(devices, name, i)
    ensures forall i :: UniqueAt(devices, name, i) ==> Named(devices, name) == [devices[i]]
  {
    var n := |devices| - 1;
    var init := devices[..n];
    assert forall j :: 0 <= j < |init| ==> init[j] == devices[j];
    assert Named(devices, name) == Named(init, name) + [devices[n]];
    if |Named(devices, name)| == 1 {
      assert UniqueAt(devices, name, n);
    }
    forall i | UniqueAt(devices, name, i)
      ensures Named(devices, name) == [devices[i]]
    {
      assert i == n;
    }
  }

  /** The step of `OneNamed` when the last device does not carry the name. */
  lemma LastNotNamed(devices: seq<Device>, name: string)
    requires |devices| > 0 && devices[|devices| - 1].name != name
    requires var init := devices[..|devices| - 1];
             && (|Named(init, name)| == 1 <==> exists i :: UniqueAt(init, name, i))
             && (forall i :: UniqueAt(init, name, i) ==> Named(init, name) == [init[i]])
    ensures |Named(devices, name)| == 1 <==> exists i :: UniqueAt(devices, name, i)
    ensures forall i :: UniqueAt(devices, name, i) ==> Named(devices, name) == [devices[i]]
  {
    var n := |devices| - 1;
    var init := devices[..n];
    assert forall j :: 0 <= j < |init| ==> init[j] == devices[j];
    assert Named(devices, name) == Named(init, name);
    forall i | UniqueAt(devices, name, i)
      ensures UniqueAt(init, name, i) && Named(devices, name) == [devices[i]]
    {
    }
    if |Named(devices, name)| == 1 {
      var i :| UniqueAt(init, name, i);
      assert UniqueAt(devices, name, i);
    }
  }

  /** `find_speakers`: the device named `name` when exactly one device has that name,
      otherwise `None` (no match, or several). */
  method FindSpeakers(devices: seq<Device>, name: string) returns (r: Option<Device>)
    ensures r.Some? <==> exists i :: UniqueAt(devices, name, i)
    ensures forall i :: UniqueAt(devices, name, i) ==> r == Some(devices[i])
    ensures r.Some? ==> r.value in devices && r.value.name == name
  {
    var matches: seq<Device> := [];
    var k := 0;
    while k < |devices|
      invariant 0 <= k <= |devices|
      invariant matches == Named(devices[..k], name)
    {
      assert devices[..k + 1][..k] == devices[..k];
      if devices[k].name == name {
        matches := matches + [devices[k]];
      }
      k := k + 1;
    }
    assert devices[..k] == devices;
    OneNamed(devices, name);
    if |matches| != 1 {
      r := None;
    } else {
      r := Some(matches[0]);
    }
  }
}

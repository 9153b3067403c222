/**
 * The application's version string and its register of capture devices in
 * use (AppDelegate.swift).  The bundle's info dictionary is passed in.
 */
module AppDelegate {
  import opened Wrappers
  import Document

  /** The text of an info-dictionary entry, if it is present and a string. */
  function StringEntry(info: map<string, Document.PlistValue>, key: string): (r: Option<string>)
    ensures r.Some? <==> key in info && info[key].PString?
    ensures r.Some? ==> info[key] == Document.PString(r.value)
  {
    if key in info && info[key].PString? then Some(info[key].s) else None
  }

  /** `version`: `"<short> (<build>)"`, or `"Unknown"` without an info dictionary. */
  function Version(info: Option<map<string, Document.PlistValue>>): (v: string)
    ensures info.None? ==> v == "Unknown"
    ensures info.Some? ==> |v| >= 3 && v[|v| - 1] == ')'
  {
    match info
    case None => "Unknown"
    case Some(dict) =>
      var version := match StringEntry(dict, "CFBundleShortVersionString") case Some(s) => s case None => "?.?.?";
      var build := match StringEntry(dict, "CFBundleVersion") case Some(s) => s case None => "??";
      version + " (" + build + ")"
  }

  /**
   * With both entries present as strings the version string is built from
   * them; an entry that is missing, or is not a string, shows its
   * placeholder, each independently of the other.
   */
  lemma VersionParts(dict: map<string, Document.PlistValue>, short: string, build: string)
    ensures var d := dict["CFBundleShortVersionString" := Document.PString(short)]["CFBundleVersion" := Document.PString(build)];
      Version(Some(d)) == short + " (" + build + ")"
    ensures StringEntry(dict, "CFBundleShortVersionString") == Some(short) && StringEntry(dict, "CFBundleVersion").None? ==>
      Version(Some(dict)) == short + " (??)"
    ensures StringEntry(dict, "CFBundleShortVersionString").None? && StringEntry(dict, "CFBundleVersion") == Some(build) ==>
      Version(Some(dict)) == "?.?.? (" + build + ")"
    ensures StringEntry(dict, "CFBundleShortVersionString").None? && StringEntry(dict, "CFBundleVersion").None? ==>
      Version(Some(dict)) == "?.?.? (??)"
  {
    var d := dict["CFBundleShortVersionString" := Document.PString(short)]["CFBundleVersion" := Document.PString(build)];
    assert StringEntry(d, "CFBundleShortVersionString") == Some(short);
  }

  /** A version entry that is not a string reads as missing. */
  lemma NonStringVersionIsPlaceholder(dict: map<string, Document.PlistValue>, n: int)
    requires "CFBundleVersion" !in dict
    ensures Version(Some(dict["CFBundleShortVersionString" := Document.PInt(n)])) == "?.?.? (??)"
  {
  }

  /** The version string is `"Unknown"` exactly when there is no info dictionary. */
  lemma UnknownOnlyWithoutInfo(info: Option<map<string, Document.PlistValue>>)
    ensures Version(info) == "Unknown" <==> info.None?
  {
    if info.Some? {
      var v := Version(info);
      assert v[|v| - 1] == ')';
      assert "Unknown"[6] == 'n';
    }
  }

  /** `devices` with every occurrence of `d` left out, the others in their order. */
  function Without(devices: seq<string>, d: string): (r: seq<string>)
    ensures d !in r
    ensures forall x :: x != d ==> (x in r <==> x in devices)
    ensures forall x :: x != d ==> multiset(r)[x] == multiset(devices)[x]
    ensures |r| <= |devices|
  {
    if devices == [] then []
    else
      var rest := Without(devices[..|devices| - 1], d);
      assert devices == devices[..|devices| - 1] + [devices[|devices| - 1]];
      if devices[|devices| - 1] == d then rest else rest + [devices[|devices| - 1]]
  }

  /** Removing distributes over concatenation, so the devices kept stay in their order. */
  lemma {:induction false} WithoutConcat(a: seq<string>, b: seq<string>, d: string)
    ensures Without(a + b, d) == Without(a, d) + Without(b, d)
    decreases |b|
  {
    if b == [] {
      assert a + b == a;
    } else {
      var last := b[|b| - 1];
      assert (a + b)[..|a + b| - 1] == a + b[..|b| - 1];
      WithoutConcat(a, b[..|b| - 1], d);
    }
  }

  /** Removing a device that is not registered changes nothing. */
  lemma {:induction false} WithoutAbsent(devices: seq<string>, d: string)
    requires d !in devices
    ensures Without(devices, d) == devices
  {
    if devices != [] {
      assert d !in devices[..|devices| - 1];
      WithoutAbsent(devices[..|devices| - 1], d);
    }
  }

  /** The register of devices in use. */
  class AppDelegate {
    /** `usedDevices`, one entry per start not yet stopped. */
    var usedDevices: seq<string>

    constructor()
      ensures usedDevices == []
    {
      usedDevices := [];
    }

    /** `startUsingDevice`: a device started twice is listed twice. */
    method StartUsingDevice(deviceID: string)
      modifies this
      ensures usedDevices == old(usedDevices) + [deviceID]
    {
      usedDevices := usedDevices + [deviceID];
    }

    /** `stopUsingDevice`: one stop releases the device however often it was started. */
    method StopUsingDevice(deviceID: string)
      modifies this
      ensures usedDevices == Without(old(usedDevices), deviceID)
    {
      var kept: seq<string> := [];
      var i := 0;
      while i < |usedDevices|
        invariant 0 <= i <= |usedDevices|
        invariant kept == Without(usedDevices[..i], deviceID)
      {
        assert usedDevices[..i + 1] == usedDevices[..i] + [usedDevices[i]];
        if usedDevices[i] != deviceID {
          kept := kept + [usedDevices[i]];
        }
        i := i + 1;
      }
      assert usedDevices[..i] == usedDevices;
      usedDevices := kept;
    }

    /** `isUsingDevice`. */
    method IsUsingDevice(deviceID: string) returns (using: bool)
      ensures using <==> deviceID in usedDevices
    {
      using := deviceID in usedDevices;
    }
  }

  /** Starting a device marks it in use; stopping it clears it and leaves every other device as it was. */
  method StartThenStop(app: AppDelegate, d: string, other: string) returns (afterStart: bool, afterStop: bool, otherBefore: bool, otherAfter: bool)
    requires other != d
    modifies app
    ensures afterStart && !afterStop && otherBefore == otherAfter
  {
    app.StartUsingDevice(d);
    afterStart := app.IsUsingDevice(d);
    otherBefore := app.IsUsingDevice(other);
    app.StopUsingDevice(d);
    afterStop := app.IsUsingDevice(d);
    otherAfter := app.IsUsingDevice(other);
  }
}

/**
 * Input-device selection (`_setup_microphone`, demo.py:45-67): keep the
 * devices that have input channels, then pick one by name substring on
 * Linux or the first one elsewhere.
 */
module Microphone {
  import opened Wrappers

  /** One entry of the device list the audio driver reports. */
  datatype Device = Device(name: string, maxInputChannels: int)

  /** The outcome of selection. */
  datatype Selection =
    | NoInputDevices     // demo.py:50-51 raises ValueError
    | ListRequested      // demo.py:58-59 returns without choosing
    | NoMatch            // no name matched: device_index is never set, demo.py:67 raises
    | Selected(index: nat)

  /** The microphone name that asks only for the device list (demo.py:58). */
  const ListKeyword: string := "list"

  /** `sub` occurs in `s` starting at position `k`. */
  predicate SubstringAt(sub: string, s: string, k: int)
  {
    0 <= k && k + |sub| <= |s| && s[k..k + |sub|] == sub
  }

  /** Python's `sub in s` on strings. */
  function Contains(s: string, sub: string): bool
  {
    if sub <= s then true
    else if |s| == 0 then false
    else Contains(s[1..], sub)
  }

  /** `Contains` finds exactly the substrings that occur somewhere in `s`. */
  lemma {:induction false} ContainsIff(s: string, sub: string)
    ensures Contains(s, sub) <==> exists k :: SubstringAt(sub, s, k)
  {
    if sub <= s {
      assert SubstringAt(sub, s, 0);
    } else if |s| != 0 {
      ContainsIff(s[1..], sub);
      if exists k :: SubstringAt(sub, s[1..], k) {
        var k :| SubstringAt(sub, s[1..], k);
        assert s[1..][k..k + |sub|] == s[k + 1..k + 1 + |sub|];
        assert SubstringAt(sub, s, k + 1);
      }
      if exists k :: SubstringAt(sub, s, k) {
        var k :| SubstringAt(sub, s, k);
        assert k != 0;
        assert s[1..][k - 1..k - 1 + |sub|] == s[k..k + |sub|];
        assert SubstringAt(sub, s[1..], k - 1);
      }
    }
  }

  /** The list comprehension of demo.py:48: indices of devices with input channels, in order. */
  function InputDevices(devices: seq<Device>): (r: seq<nat>)
    ensures forall j :: 0 <= j < |r| ==> r[j] < |devices| && devices[r[j]].maxInputChannels > 0
    ensures forall i :: 0 <= i < |devices| && devices[i].maxInputChannels > 0 ==> i in r
    ensures forall j, k :: 0 <= j < k < |r| ==> r[j] < r[k]
  {
    if devices == [] then []
    else
      var n := |devices| - 1;
      assert forall i :: 0 <= i < n ==> devices[..n][i] == devices[i];
      InputDevices(devices[..n]) + (if devices[n].maxInputChannels > 0 then [n] else [])
  }

  /** Every device with input channels has a position in the filtered list. */
  lemma InputDevicePosition(devices: seq<Device>, i: nat) returns (k: nat)
    requires i < |devices| && devices[i].maxInputChannels > 0
    ensures k < |InputDevices(devices)| && InputDevices(devices)[k] == i
  {
    k :| 0 <= k < |InputDevices(devices)| && InputDevices(devices)[k] == i;
  }

  /** The filtered list is empty exactly when no device has input channels. */
  lemma NoInputDevicesIff(devices: seq<Device>)
    ensures InputDevices(devices) == [] <==>
              forall i :: 0 <= i < |devices| ==> devices[i].maxInputChannels <= 0
  {

  }

  /** The head of the filtered list is the first device with input channels. */
  lemma FirstInputDevice(devices: seq<Device>)
    requires InputDevices(devices) != []
    ensures forall i :: 0 <= i < InputDevices(devices)[0] ==> devices[i].maxInputChannels <= 0
  {
  }

  /**
   * The for/break scan of demo.py:60-63: the first input device, in
   * enumeration order, whose name contains `microphone`.
   */
  method FindByName(devices: seq<Device>, microphone: string) returns (s: Selection)
    ensures s == NoMatch || s.Selected?
    ensures s.Selected? ==>
              s.index < |devices| && devices[s.index].maxInputChannels > 0 &&
              Contains(devices[s.index].name, microphone) &&
              forall i :: 0 <= i < s.index && devices[i].maxInputChannels > 0 ==>
                !Contains(devices[i].name, microphone)
    ensures s == NoMatch <==>
              forall i :: 0 <= i < |devices| && devices[i].maxInputChannels > 0 ==>
                !Contains(devices[i].name, microphone)
  {
    var inputs := InputDevices(devices);
    s := NoMatch;
    var j := 0;
    while j < |inputs|
      invariant 0 <= j <= |inputs| && s == NoMatch
      invariant forall k :: 0 <= k < j ==> !Contains(devices[inputs[k]].name, microphone)
    {
      if Contains(devices[inputs[j]].name, microphone) {
        s := Selected(inputs[j]);
        break;
      }
      j := j + 1;
    }
    if s.Selected? {
      forall i | 0 <= i < s.index && devices[i].maxInputChannels > 0
        ensures !Contains(devices[i].name, microphone)
      {
        var k := InputDevicePosition(devices, i);
        assert k < j;
      }
    } else {
      forall i | 0 <= i < |devices| && devices[i].maxInputChannels > 0
        ensures !Contains(devices[i].name, microphone)
      {
        var k := InputDevicePosition(devices, i);
      }
    }
  }

  /**
   * `_setup_microphone` (demo.py:47-65). On Linux with a configured
   * microphone name the first input device whose name contains it is
   * chosen; otherwise the first input device.
   */
  method SelectInputDevice(devices: seq<Device>, isLinux: bool, defaultMicrophone: Option<string>)
    returns (s: Selection)
    ensures s == NoInputDevices <==> forall i :: 0 <= i < |devices| ==> devices[i].maxInputChannels <= 0
    ensures s.Selected? ==> s.index < |devices| && devices[s.index].maxInputChannels > 0
    ensures s == ListRequested <==>
              InputDevices(devices) != [] && isLinux && defaultMicrophone == Some(ListKeyword)
    ensures isLinux && defaultMicrophone.Some? && s.Selected? ==>
              Contains(devices[s.index].name, defaultMicrophone.value) &&
              forall i :: 0 <= i < s.index && devices[i].maxInputChannels > 0 ==>
                !Contains(devices[i].name, defaultMicrophone.value)
    ensures s == NoMatch <==>
              InputDevices(devices) != [] && isLinux && defaultMicrophone.Some? &&
              defaultMicrophone.value != ListKeyword &&
              forall i :: 0 <= i < |devices| && devices[i].maxInputChannels > 0 ==>
                !Contains(devices[i].name, defaultMicrophone.value)
    ensures !(isLinux && defaultMicrophone.Some?) && InputDevices(devices) != [] ==>
              s.Selected? && forall i :: 0 <= i < s.index ==> devices[i].maxInputChannels <= 0
  {
    var inputs := InputDevices(devices);
    NoInputDevicesIff(devices);
    if inputs == [] {
      return NoInputDevices;
    }
    if isLinux && defaultMicrophone.Some? {
      if defaultMicrophone.value == ListKeyword {
        return ListRequested;
      }
      s := FindByName(devices, defaultMicrophone.value);
    } else {
      FirstInputDevice(devices);
      s := Selected(inputs[0]);
    }
  }
}

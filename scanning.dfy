/**
 * What one advertisement does to the roster (the body of the scan
 * callback's `onScanResult`), and what a whole stream of them does.
 */
module Scanning {
  import opened Wrappers
  import opened Peripherals

  /** The `BluetoothDevice` of a scan result: both its name and its address may be null. */
  datatype Device = Device(name: Option<string>, address: Option<string>)

  /** A `ScanResult`; its device may be null. */
  datatype ScanResult = ScanResult(device: Option<Device>)

  /**
   * One call of `onScanResult`: whether the connect permission was granted at
   * the moment the call arrived, and the (nullable) result it carried.
   */
  datatype Advertisement = Advertisement(permitted: bool, result: Option<ScanResult>)

  /**
   * The record an advertisement proposes, if any: the result and its device
   * must be present and the name and address both non-null and non-empty.
   */
  function Candidate(result: Option<ScanResult>): (r: Option<Peripheral>)
    ensures r.Some? ==> Admissible(r.value)
    ensures r.Some? <==>
      result.Some? && result.value.device.Some? &&
      result.value.device.value.name.Some? && result.value.device.value.name.value != [] &&
      result.value.device.value.address.Some? && result.value.device.value.address.value != []
    ensures r.Some? ==>
      result.value.device.value.name == Some(r.value.name) &&
      result.value.device.value.address == Some(r.value.address)
  {
    match result
    case None => None
    case Some(res) =>
      match res.device
      case None => None
      case Some(device) =>
        match (device.name, device.address)
        case (Some(name), Some(address)) =>
          if name == [] || address == [] then None else Some(Peripheral(name, address))
        case _ => None
  }

  /** The record an advertisement admits: nothing at all when the permission is missing. */
  function Admit(e: Advertisement): (r: Option<Peripheral>)
    ensures !e.permitted ==> r.None?
    ensures e.permitted ==> r == Candidate(e.result)
  {
    if e.permitted then Candidate(e.result) else None
  }

  /**
   * The roster after one advertisement: an admitted record that is not yet
   * present is appended at the end; everything else leaves the roster as it was.
   */
  function ScanStep(roster: seq<Peripheral>, e: Advertisement): (r: seq<Peripheral>)
    ensures |roster| <= |r| <= |roster| + 1
    ensures r[..|roster|] == roster
    ensures RosterValid(roster) ==> RosterValid(r)
  {
    match Admit(e)
    case None => roster
    case Some(rec) => if rec in roster then roster else roster + [rec]
  }

  /** The roster after a stream of advertisements, processed in arrival order. */
  function ScanAll(roster: seq<Peripheral>, events: seq<Advertisement>): (r: seq<Peripheral>)
    ensures RosterValid(roster) ==> RosterValid(r)
    decreases |events|
  {
    if events == [] then roster
    else ScanStep(ScanAll(roster, events[..|events| - 1]), events[|events| - 1])
  }

  /** Some advertisement of the stream admits `x`. */
  ghost predicate AdmittedBy(events: seq<Advertisement>, x: Peripheral) {
    exists i :: 0 <= i < |events| && Admit(events[i]) == Some(x)
  }

  // ---------------------------------------------------------------------------
  // One advertisement
  // ---------------------------------------------------------------------------

  /** Without the permission the roster is left unchanged. */
  lemma DeniedLeavesRoster(roster: seq<Peripheral>, result: Option<ScanResult>)
    ensures ScanStep(roster, Advertisement(false, result)) == roster
  {
  }

  /** A null result or device, or a null or empty name or address, leaves the roster unchanged. */
  lemma MalformedLeavesRoster(roster: seq<Peripheral>, e: Advertisement)
    requires Candidate(e.result).None?
    ensures ScanStep(roster, e) == roster
  {
  }

  /** A record that is already listed is dropped. */
  lemma DuplicateLeavesRoster(roster: seq<Peripheral>, e: Advertisement)
    requires Admit(e).Some? && Admit(e).value in roster
    ensures ScanStep(roster, e) == roster
  {
  }

  /** A new admissible record is appended at the end, and only it. */
  lemma NewRecordAppended(roster: seq<Peripheral>, e: Advertisement)
    requires Admit(e).Some? && Admit(e).value !in roster
    ensures ScanStep(roster, e) == roster + [Admit(e).value]
  {
  }

  /** Membership after one advertisement: the old members plus the record it admits. */
  lemma ScanStepMembers(roster: seq<Peripheral>, e: Advertisement, x: Peripheral)
    ensures x in ScanStep(roster, e) <==> x in roster || Admit(e) == Some(x)
  {
  }

  /** Submitting the same advertisement twice gives the same roster as submitting it once. */
  lemma ScanStepIdempotent(roster: seq<Peripheral>, e: Advertisement)
    ensures ScanStep(ScanStep(roster, e), e) == ScanStep(roster, e)
  {
  }

  // ---------------------------------------------------------------------------
  // A stream of advertisements
  // ---------------------------------------------------------------------------

  /** Processing two streams one after the other is processing their concatenation. */
  lemma {:induction false} ScanAllAppend(roster: seq<Peripheral>, a: seq<Advertisement>, b: seq<Advertisement>)
    ensures ScanAll(roster, a + b) == ScanAll(ScanAll(roster, a), b)
    decreases |b|
  {
    if b == [] {
      assert a + b == a;
    } else {
      var b' := b[..|b| - 1];
      assert (a + b)[..|a + b| - 1] == a + b';
      assert (a + b)[|a + b| - 1] == b[|b| - 1];
      ScanAllAppend(roster, a, b');
    }
  }

  /** The roster only grows at its end: earlier records keep their place and order. */
  lemma {:induction false} ScanAllExtends(roster: seq<Peripheral>, events: seq<Advertisement>)
    ensures |roster| <= |ScanAll(roster, events)|
    ensures ScanAll(roster, events)[..|roster|] == roster
    decreases |events|
  {
    if events != [] {
      var init := events[..|events| - 1];
      ScanAllExtends(roster, init);
      var mid := ScanAll(roster, init);
      var r := ScanStep(mid, events[|events| - 1]);
      assert r[..|mid|] == mid;
      assert r[..|roster|] == r[..|mid|][..|roster|];
    }
  }

  /** Exactly the records admitted by some advertisement of the stream end up in the roster. */
  lemma {:induction false} ScanAllMembers(roster: seq<Peripheral>, events: seq<Advertisement>, x: Peripheral)
    ensures x in ScanAll(roster, events) <==> x in roster || AdmittedBy(events, x)
    decreases |events|
  {
    if events == [] {
    } else {
      var init := events[..|events| - 1];
      var last := events[|events| - 1];
      ScanAllMembers(roster, init, x);
      ScanStepMembers(ScanAll(roster, init), last, x);
      if AdmittedBy(events, x) {
        var i :| 0 <= i < |events| && Admit(events[i]) == Some(x);
        if i < |init| {
          assert init[i] == events[i];
        }
      }
      if AdmittedBy(init, x) {
        var i :| 0 <= i < |init| && Admit(init[i]) == Some(x);
        assert events[i] == init[i];
      }
    }
  }

  /**
   * First-seen order: if the record admitted at position `i` reaches the roster
   * and the record admitted at a later position `j` had not been admitted
   * before `j`, the first record stands before the second.
   */
  lemma FirstSeenOrder(events: seq<Advertisement>, i: nat, j: nat)
    requires i < j < |events|
    requires Admit(events[i]).Some? && Admit(events[j]).Some?
    requires forall k :: 0 <= k < j ==> Admit(events[k]) != Admit(events[j])
    ensures exists a, b :: (0 <= a < b < |ScanAll([], events)| &&
                            ScanAll([], events)[a] == Admit(events[i]).value &&
                            ScanAll([], events)[b] == Admit(events[j]).value)
  {
    var x, y := Admit(events[i]).value, Admit(events[j]).value;
    var before, after := events[..j], events[j..];
    assert events == before + after;
    ScanAllAppend([], before, after);
    var p := ScanAll([], before);
    var f := ScanAll([], events);
    assert f == ScanAll(p, after);
    ScanAllExtends(p, after);

    assert before[i] == events[i];
    ScanAllMembers([], before, x);
    var a :| 0 <= a < |p| && p[a] == x;
    assert f[a] == p[a];

    forall k | 0 <= k < |before| ensures Admit(before[k]) != Some(y) {
      assert before[k] == events[k];
    }
    ScanAllMembers([], before, y);
    assert y !in p;
    ScanAllMembers([], events, y);
    var b :| 0 <= b < |f| && f[b] == y;
    forall c | 0 <= c < |p| ensures f[c] != y {
      assert f[c] == p[c];
    }
    assert a < b;
  }

  /** With the permission missing at every advertisement, nothing is ever admitted. */
  lemma {:induction false} DeniedStreamLeavesRoster(roster: seq<Peripheral>, events: seq<Advertisement>)
    requires forall k :: 0 <= k < |events| ==> !events[k].permitted
    ensures ScanAll(roster, events) == roster
    decreases |events|
  {
    if events != [] {
      DeniedStreamLeavesRoster(roster, events[..|events| - 1]);
    }
  }

  /** A record with an empty name or address never appears, however often it is advertised. */
  lemma InadmissibleNeverListed(events: seq<Advertisement>, x: Peripheral)
    requires !Admissible(x)
    ensures x !in ScanAll([], events)
  {
    ScanAllMembers([], events, x);
  }

  /** An advertisement heard with the permission granted, carrying a device with this name and address. */
  function Heard(name: string, address: string): Advertisement {
    Advertisement(true, Some(ScanResult(Some(Device(Some(name), Some(address))))))
  }

  /** The stream (A,1), (B,2), (A,1) again, (C,3) gives the roster [A, B, C]. */
  lemma FirstSeenExample()
    ensures ScanAll([], [Heard("A", "1"), Heard("B", "2"), Heard("A", "1"), Heard("C", "3")]) ==
      [Peripheral("A", "1"), Peripheral("B", "2"), Peripheral("C", "3")]
  {
    var a, b, c := Peripheral("A", "1"), Peripheral("B", "2"), Peripheral("C", "3");
    var events := [Heard("A", "1"), Heard("B", "2"), Heard("A", "1"), Heard("C", "3")];
    assert events[..1] == [Heard("A", "1")] && [Heard("A", "1")][..0] == [];
    assert ScanAll([], events[..1]) == [a];
    assert events[..2][..1] == events[..1];
    assert ScanAll([], events[..2]) == [a, b];
    assert events[..3][..2] == events[..2];
    assert ScanAll([], events[..3]) == [a, b];
    assert events[..3] == events[..|events| - 1];
  }
}

/**
 * The scan wiring of the app's navigator: starting a scan cancels the
 * previous scan job and stops the client's scan before a new job is
 * launched, and the job forwards each collected device whose address it has
 * not seen yet in this job.
 */
module AppNavigation {
  import opened Wrappers
  import opened BleModels
  import opened Sequences
  import opened AndroidBle

  function Addresses(ds: seq<BleScanDevice>): (r: seq<string>)
    ensures |r| == |ds|
    ensures forall i :: 0 <= i < |ds| ==> r[i] == ds[i].address
  {
    if ds == [] then [] else [ds[0].address] + Addresses(ds[1..])
  }

  /** Position of the first device in `ds` with address `a`. */
  function FirstIndex(ds: seq<BleScanDevice>, a: string): (i: nat)
    requires a in Addresses(ds)
    ensures i < |ds| && ds[i].address == a
    ensures forall j :: 0 <= j < i ==> ds[j].address != a
  {
    if ds[0].address == a then 0 else 1 + FirstIndex(ds[1..], a)
  }

  /** No address occurs twice. */
  ghost predicate DistinctAddresses(r: seq<BleScanDevice>)
  {
    forall i, j :: 0 <= i < j < |r| ==> r[i].address != r[j].address
  }

  /** `x` is the first device of `ds` with its address. */
  ghost predicate FirstAdvertisement(x: BleScanDevice, ds: seq<BleScanDevice>)
  {
    x.address in Addresses(ds) && ds[FirstIndex(ds, x.address)] == x
  }

  /** Every device of `r` is the first device of `ds` with its address. */
  ghost predicate FirstAdvertisements(r: seq<BleScanDevice>, ds: seq<BleScanDevice>)
  {
    forall k :: 0 <= k < |r| ==> FirstAdvertisement(r[k], ds)
  }

  /** The addresses of devices `x` and `y` occur in `ds`, the one of `x` first. */
  ghost predicate FirstSeenBefore(x: BleScanDevice, y: BleScanDevice, ds: seq<BleScanDevice>)
  {
    && x.address in Addresses(ds) && y.address in Addresses(ds)
    && FirstIndex(ds, x.address) < FirstIndex(ds, y.address)
  }

  /** `r` lists its devices in the order their addresses first occur in `ds`. */
  ghost predicate InFirstSeenOrder(r: seq<BleScanDevice>, ds: seq<BleScanDevice>)
  {
    forall i, j :: 0 <= i < j < |r| ==> FirstSeenBefore(r[i], r[j], ds)
  }

  /**
   * Reference definition of what one scan job forwards when the addresses in
   * `seen` have already been forwarded: each device whose address is new.
   */
  function FirstSeen(ds: seq<BleScanDevice>, seen: set<string>): seq<BleScanDevice>
  {
    if ds == [] then []
    else if ds[0].address in seen then FirstSeen(ds[1..], seen)
    else [ds[0]] + FirstSeen(ds[1..], seen + {ds[0].address})
  }

  /** Exactly the new addresses are forwarded: none dropped, none already seen. */
  lemma {:induction false} FirstSeenAddresses(ds: seq<BleScanDevice>, seen: set<string>)
    ensures forall a :: a in Addresses(FirstSeen(ds, seen)) <==> a in Addresses(ds) && a !in seen
  {
    if ds != [] {
      var d := ds[0];
      assert Addresses(ds) == [d.address] + Addresses(ds[1..]);
      if d.address in seen {
        FirstSeenAddresses(ds[1..], seen);
      } else {
        FirstSeenAddresses(ds[1..], seen + {d.address});
        assert Addresses(FirstSeen(ds, seen)) == [d.address] + Addresses(FirstSeen(ds[1..], seen + {d.address}));
      }
    }
  }

  /** Every device of `r` has an address that occurs in `ds` and is not in `seen`. */
  ghost predicate NewAddressesOf(r: seq<BleScanDevice>, ds: seq<BleScanDevice>, seen: set<string>)
  {
    forall m :: 0 <= m < |r| ==> r[m].address in Addresses(ds) && r[m].address !in seen
  }

  lemma {:induction false} ForwardedAreNew(ds: seq<BleScanDevice>, seen: set<string>)
    ensures NewAddressesOf(FirstSeen(ds, seen), ds, seen)
  {
    var r := FirstSeen(ds, seen);
    FirstSeenAddresses(ds, seen);
    forall m | 0 <= m < |r| ensures r[m].address in Addresses(ds) && r[m].address !in seen {
      assert Addresses(r)[m] == r[m].address;
    }
  }

  /** At most one device is forwarded per address. */
  lemma {:induction false} FirstSeenDistinct(ds: seq<BleScanDevice>, seen: set<string>)
    ensures DistinctAddresses(FirstSeen(ds, seen))
  {
    if ds != [] {
      var d := ds[0];
      if d.address in seen {
        FirstSeenDistinct(ds[1..], seen);
      } else {
        var seen' := seen + {d.address};
        var rest := FirstSeen(ds[1..], seen');
        FirstSeenDistinct(ds[1..], seen');
        ForwardedAreNew(ds[1..], seen');
        var r := [d] + rest;
        forall i, j | 0 <= i < j < |r| ensures r[i].address != r[j].address {
          assert r[j] == rest[j - 1];
          if i > 0 {
            assert r[i] == rest[i - 1];
          }
        }
      }
    }
  }

  /** Forwarded devices are taken from the input in input order. */
  lemma {:induction false} FirstSeenIsSubsequence(ds: seq<BleScanDevice>, seen: set<string>)
    ensures IsSubsequence(FirstSeen(ds, seen), ds)
  {
    if ds != [] {
      var d := ds[0];
      if d.address in seen {
        FirstSeenIsSubsequence(ds[1..], seen);
      } else {
        FirstSeenIsSubsequence(ds[1..], seen + {d.address});
        assert ([d] + FirstSeen(ds[1..], seen + {d.address}))[1..] == FirstSeen(ds[1..], seen + {d.address});
      }
    }
  }

  lemma {:induction false} FirstIndexOfTail(ds: seq<BleScanDevice>, a: string)
    requires ds != [] && a in Addresses(ds[1..]) && a != ds[0].address
    ensures a in Addresses(ds) && FirstIndex(ds, a) == 1 + FirstIndex(ds[1..], a)
  {
    assert Addresses(ds) == [ds[0].address] + Addresses(ds[1..]);
  }

  lemma {:induction false} FirstAdvertisementOfTail(ds: seq<BleScanDevice>, x: BleScanDevice)
    requires ds != [] && FirstAdvertisement(x, ds[1..]) && x.address != ds[0].address
    ensures FirstAdvertisement(x, ds)
  {
    FirstIndexOfTail(ds, x.address);
  }

  /** Each forwarded device is the first advertisement of its address, not a later one. */
  lemma {:induction false} FirstSeenKeepsFirst(ds: seq<BleScanDevice>, seen: set<string>)
    ensures FirstAdvertisements(FirstSeen(ds, seen), ds)
  {
    if ds != [] {
      var d, tail := ds[0], ds[1..];
      var seen' := if d.address in seen then seen else seen + {d.address};
      var rest := FirstSeen(tail, seen');
      FirstSeenKeepsFirst(tail, seen');
      ForwardedAreNew(tail, seen');
      forall m | 0 <= m < |rest| ensures FirstAdvertisement(rest[m], ds) {
        FirstAdvertisementOfTail(ds, rest[m]);
      }
      if d.address !in seen {
        var r := [d] + rest;
        assert Addresses(ds)[0] == d.address;
        forall k | 0 <= k < |r| ensures FirstAdvertisement(r[k], ds) {
          if k > 0 {
            assert r[k] == rest[k - 1];
          }
        }
      }
    }
  }

  /** An order over the tail is the same order over the whole input when the head's address is absent. */
  lemma {:induction false} OrderFromTail(ds: seq<BleScanDevice>, r: seq<BleScanDevice>)
    requires ds != []
    requires NewAddressesOf(r, ds[1..], {ds[0].address})
    requires InFirstSeenOrder(r, ds[1..])
    ensures InFirstSeenOrder(r, ds)
  {
    forall i, j | 0 <= i < j < |r| ensures FirstSeenBefore(r[i], r[j], ds) {
      assert FirstSeenBefore(r[i], r[j], ds[1..]);
      FirstIndexOfTail(ds, r[i].address);
      FirstIndexOfTail(ds, r[j].address);
    }
  }

  /** The input's head first occurs before every address that only the tail holds. */
  lemma {:induction false} HeadSeenBefore(ds: seq<BleScanDevice>, y: BleScanDevice)
    requires ds != [] && y.address in Addresses(ds[1..]) && y.address != ds[0].address
    ensures FirstSeenBefore(ds[0], y, ds)
  {
    assert Addresses(ds)[0] == ds[0].address;
    FirstIndexOfTail(ds, y.address);
  }

  lemma {:induction false} OrderWithHeadFirst(ds: seq<BleScanDevice>, r: seq<BleScanDevice>, j: int)
    requires ds != [] && 0 < j <= |r|
    requires NewAddressesOf(r, ds[1..], {ds[0].address})
    ensures FirstSeenBefore(([ds[0]] + r)[0], ([ds[0]] + r)[j], ds)
  {
    assert ([ds[0]] + r)[j] == r[j - 1];
    HeadSeenBefore(ds, r[j - 1]);
  }

  lemma {:induction false} OrderWithHeadLater(ds: seq<BleScanDevice>, r: seq<BleScanDevice>, i: int, j: int)
    requires ds != [] && 0 < i < j <= |r|
    requires InFirstSeenOrder(r, ds)
    ensures FirstSeenBefore(([ds[0]] + r)[i], ([ds[0]] + r)[j], ds)
  {
    assert ([ds[0]] + r)[i] == r[i - 1] && ([ds[0]] + r)[j] == r[j - 1];
  }

  /** Putting the input's head in front keeps the order, since its address first occurs at 0. */
  lemma {:induction false} OrderWithHead(ds: seq<BleScanDevice>, r: seq<BleScanDevice>)
    requires ds != []
    requires NewAddressesOf(r, ds[1..], {ds[0].address})
    requires InFirstSeenOrder(r, ds)
    ensures InFirstSeenOrder([ds[0]] + r, ds)
  {
    forall i, j | 0 <= i < j < |r| + 1 ensures FirstSeenBefore(([ds[0]] + r)[i], ([ds[0]] + r)[j], ds) {
      if i == 0 {
        OrderWithHeadFirst(ds, r, j);
      } else {
        OrderWithHeadLater(ds, r, i, j);
      }
    }
  }

  /** Forwarded devices are ordered by where their address first appeared in the input. */
  lemma {:induction false} FirstSeenOrder(ds: seq<BleScanDevice>, seen: set<string>)
    ensures InFirstSeenOrder(FirstSeen(ds, seen), ds)
  {
    if ds != [] {
      var d, tail := ds[0], ds[1..];
      var seen' := if d.address in seen then seen else seen + {d.address};
      var rest := FirstSeen(tail, seen');
      FirstSeenOrder(tail, seen');
      ForwardedAreNew(tail, seen');
      assert NewAddressesOf(rest, tail, {d.address});
      OrderFromTail(ds, rest);
      if d.address in seen {
        assert FirstSeen(ds, seen) == rest;
      } else {
        assert FirstSeen(ds, seen) == [d] + rest;
        OrderWithHead(ds, rest);
      }
    }
  }

  lemma {:induction false} SeenAddresses(ds: seq<BleScanDevice>, seen: set<string>)
    requires forall a :: a in seen <==> exists k :: 0 <= k < |ds| && ds[k].address == a
    ensures forall a :: a in seen <==> a in Addresses(ds)
  {
    forall a | a in Addresses(ds) ensures a in seen {
      var k :| 0 <= k < |ds| && Addresses(ds)[k] == a;
      assert ds[k].address == a;
    }
  }

  /**
   * The collect loop of one scan job: a fresh `seen` set, and each device is
   * forwarded (onDevice) when adding its address to `seen` succeeds.
   */
  method CollectScan(devices: seq<BleScanDevice>) returns (forwarded: seq<BleScanDevice>, seen: set<string>)
    ensures forwarded == FirstSeen(devices, {})
    ensures forall a :: a in seen <==> a in Addresses(devices)
    ensures DistinctAddresses(forwarded)
    ensures forall a :: a in Addresses(forwarded) <==> a in Addresses(devices)
    ensures FirstAdvertisements(forwarded, devices) && InFirstSeenOrder(forwarded, devices)
  {
    seen, forwarded := {}, [];
    var i := 0;
    while i < |devices|
      invariant 0 <= i <= |devices|
      invariant forwarded + FirstSeen(devices[i..], seen) == FirstSeen(devices, {})
      invariant forall a :: a in seen <==> exists k :: 0 <= k < i && devices[k].address == a
    {
      var device := devices[i];
      assert devices[i..][1..] == devices[i + 1..];
      if device.address !in seen {
        seen := seen + {device.address};
        forwarded := forwarded + [device];
      }
      i := i + 1;
    }
    assert devices[i..] == [];
    SeenAddresses(devices, seen);
    FirstSeenDistinct(devices, {});
    FirstSeenAddresses(devices, {});
    FirstSeenKeepsFirst(devices, {});
    FirstSeenOrder(devices, {});
  }

  /** Addresses arriving as A, B, A, C, B are forwarded as A, B, C, each with its first advertisement. */
  lemma RepeatedAddressesExample()
    ensures var ds := [BleScanDevice(None, "A", -40, true), BleScanDevice(None, "B", -50, true),
                       BleScanDevice(None, "A", -60, true), BleScanDevice(None, "C", -70, false),
                       BleScanDevice(None, "B", -80, true)];
            FirstSeen(ds, {}) == [ds[0], ds[1], ds[3]]
  {
    var ds := [BleScanDevice(None, "A", -40, true), BleScanDevice(None, "B", -50, true),
               BleScanDevice(None, "A", -60, true), BleScanDevice(None, "C", -70, false),
               BleScanDevice(None, "B", -80, true)];
    var s1 := {} + {"A"};
    var s2 := s1 + {"B"};
    var s3 := s2 + {"C"};
    assert ds[4..][1..] == [];
    assert FirstSeen(ds[4..], s3) == [];
    assert ds[3..][1..] == ds[4..];
    assert FirstSeen(ds[3..], s2) == [ds[3]];
    assert ds[2..][1..] == ds[3..];
    assert FirstSeen(ds[2..], s2) == [ds[3]];
    assert ds[1..][1..] == ds[2..];
    assert FirstSeen(ds[1..], s1) == [ds[1], ds[3]];
  }

  /**
   * One launched scan job: it owns the `seen` set of its collection, which
   * starts empty, and cancelling it ends that collection (only a job that is
   * not cancelled collects).
   */
  class ScanJob {
    var isCancelled: bool
    var seen: set<string>

    constructor ()
      ensures !isCancelled && seen == {}
    {
      isCancelled := false;
      seen := {};
    }

    method Cancel()
      modifies this
      ensures isCancelled && seen == old(seen)
    {
      isCancelled := true;
    }

    /**
     * The job's collection of the scan flow: devices are forwarded by
     * `CollectScan`, and afterwards `seen` holds every address collected.
     */
    method Collect(devices: seq<BleScanDevice>) returns (forwarded: seq<BleScanDevice>)
      requires !isCancelled && seen == {}
      modifies this
      ensures forwarded == FirstSeen(devices, {})
      ensures forall a :: a in Addresses(forwarded) <==> a in Addresses(devices)
      ensures forall a :: a in seen <==> a in Addresses(devices)
      ensures isCancelled == old(isCancelled)
    {
      forwarded, seen := CollectScan(devices);
    }
  }

  /** The navigator's scan state: the client and the job of the current scan, if any. */
  class AppNavigator {
    const bleClient: AndroidBleClient
    var scanJob: ScanJob?

    constructor (bleClient: AndroidBleClient)
      ensures this.bleClient == bleClient && scanJob == null
    {
      this.bleClient := bleClient;
      scanJob := null;
    }

    /**
     * onStartScan: cancel the previous job, stop the client's scan, then
     * launch a new job (whose collection is `CollectScan`, with its own
     * empty `seen` set).
     */
    method OnStartScan() returns (job: ScanJob)
      requires bleClient.Valid()
      modifies this, scanJob, bleClient
      ensures old(scanJob) != null ==> old(scanJob).isCancelled
      ensures bleClient.Valid() && bleClient.ConnectionUnchanged()
      ensures !bleClient.isScanning && bleClient.scanCallback == null
      ensures bleClient.radio == old(bleClient.radio) + old(bleClient.StopCalls())
      ensures fresh(job) && !job.isCancelled && job.seen == {} && scanJob == job
    {
      if scanJob != null {
        scanJob.Cancel();
      }
      bleClient.StopScan();
      job := new ScanJob();
      scanJob := job;
    }

    /** onStopScan: cancel the current job and stop the client's scan. */
    method OnStopScan()
      requires bleClient.Valid()
      modifies scanJob, bleClient
      ensures scanJob == old(scanJob)
      ensures scanJob != null ==> scanJob.isCancelled
      ensures bleClient.Valid() && bleClient.ConnectionUnchanged()
      ensures !bleClient.isScanning && bleClient.scanCallback == null
      ensures bleClient.radio == old(bleClient.radio) + old(bleClient.StopCalls())
    {
      if scanJob != null {
        scanJob.Cancel();
      }
      bleClient.StopScan();
    }
  }

  /**
   * Two scans started one after the other: the second job starts from an
   * empty `seen` set, so an address forwarded by the first scan is forwarded
   * again by the second.
   */
  method ScanTwice(first: seq<BleScanDevice>, second: seq<BleScanDevice>)
    returns (forwardedFirst: seq<BleScanDevice>, forwardedSecond: seq<BleScanDevice>)
    ensures forall a :: a in Addresses(second) ==> a in Addresses(forwardedSecond)
    ensures forall a :: a in Addresses(first) ==> a in Addresses(forwardedFirst)
    ensures forwardedSecond == FirstSeen(second, {})
  {
    var client := new AndroidBleClient();
    var navigator := new AppNavigator(client);
    var job1 := navigator.OnStartScan();
    forwardedFirst := job1.Collect(first);
    var job2 := navigator.OnStartScan();
    forwardedSecond := job2.Collect(second);
  }
}

/** What the two collectors make of any world, inspection by inspection. */
module Looking {
  import opened Contracts
  import opened Gateway
  import R = Replay
  import D = Discovery

  /** The world before the `k`-th target is looked at; only bound targets are inspected. */
  function WorldAt<W>(ports: Ports<W>, profile: Profile, targets: seq<Target>, w: W, k: nat): W
    requires k <= |targets|
  {
    if k == 0 then w
    else
      var before := WorldAt(ports, profile, targets, w, k - 1);
      if targets[k - 1] in profile.bindings then ports.inspect(before, targets[k - 1]).1 else before
  }

  function SeenAt<W>(ports: Ports<W>, profile: Profile, targets: seq<Target>, w: W, k: nat): Inspection
    requires k < |targets|
  {
    ports.inspect(WorldAt(ports, profile, targets, w, k), targets[k]).0
  }

  predicate CanBeSeen<W>(ports: Ports<W>, profile: Profile, targets: seq<Target>, w: W, k: nat)
    requires k < |targets|
  {
    targets[k] in profile.bindings && SeenAt(ports, profile, targets, w, k).Readable()
  }

  lemma {:induction false} WorldOfRest<W>(ports: Ports<W>, profile: Profile, targets: seq<Target>, w: W, k: nat)
    requires 1 <= k <= |targets| && targets[0] in profile.bindings
    ensures WorldAt(ports, profile, targets, w, k) == WorldAt(ports, profile, targets[1..], ports.inspect(w, targets[0]).1, k - 1)
  {
    if k > 1 {
      WorldOfRest(ports, profile, targets, w, k - 1);
      assert targets[k - 1] == targets[1..][k - 2];
    } else {
      assert WorldAt(ports, profile, targets, w, 0) == w;
    }
  }

  /** Replay's collector: every target as it was seen, or the first that is unbound or cannot be read, and why. */
  ghost predicate IsCollected<W>(
    ports: Ports<W>, profile: Profile, targets: seq<Target>, w: W, c: Result<Snapshot, R.Reason>)
  {
    if c.Ok? then
      |c.value| == |targets| && forall k :: 0 <= k < |targets| ==>
        CanBeSeen(ports, profile, targets, w, k) && R.Pictures(c.value[k], targets[k], SeenAt(ports, profile, targets, w, k))
    else exists k: nat :: k < |targets| && FailsAt(ports, profile, targets, w, k, c.error)
  }

  ghost predicate FailsAt<W>(ports: Ports<W>, profile: Profile, targets: seq<Target>, w: W, k: nat, why: R.Reason)
    requires k < |targets|
  {
    && (forall j :: 0 <= j < k ==> CanBeSeen(ports, profile, targets, w, j))
    && if targets[k] !in profile.bindings then why == R.BindingMissing
       else
         var seen := SeenAt(ports, profile, targets, w, k);
         (seen.Ambiguous? && why == R.AmbiguousTarget) || (seen.Raises? && why == R.InspectionRaised)
  }

  lemma SeenOfRest<W>(ports: Ports<W>, profile: Profile, targets: seq<Target>, w: W, k: nat)
    requires 1 <= k < |targets| && targets[0] in profile.bindings
    ensures var w' := ports.inspect(w, targets[0]).1;
      && targets[k] == targets[1..][k - 1]
      && SeenAt(ports, profile, targets, w, k) == SeenAt(ports, profile, targets[1..], w', k - 1)
      && CanBeSeen(ports, profile, targets, w, k) == CanBeSeen(ports, profile, targets[1..], w', k - 1)
  {
    WorldOfRest(ports, profile, targets, w, k);
  }

  lemma {:induction false} CollectTells<W>(ports: Ports<W>, profile: Profile, targets: seq<Target>, w: W)
    ensures IsCollected(ports, profile, targets, w, R.Collect(ports, profile, targets, w).snapshot)
  {
    if targets != [] {
      assert WorldAt(ports, profile, targets, w, 0) == w;
      if CanBeSeen(ports, profile, targets, w, 0) {
        CollectTells(ports, profile, targets[1..], ports.inspect(w, targets[0]).1);
        RestTells(ports, profile, targets, w);
      } else {
        assert FailsAt(ports, profile, targets, w, 0, R.Collect(ports, profile, targets, w).snapshot.error);
      }
    }
  }

  lemma RestTells<W>(ports: Ports<W>, profile: Profile, targets: seq<Target>, w: W)
    requires targets != [] && CanBeSeen(ports, profile, targets, w, 0)
    requires var w' := ports.inspect(w, targets[0]).1;
      IsCollected(ports, profile, targets[1..], w', R.Collect(ports, profile, targets[1..], w').snapshot)
    ensures IsCollected(ports, profile, targets, w, R.Collect(ports, profile, targets, w).snapshot)
  {
    var w' := ports.inspect(w, targets[0]).1;
    var rest, c := R.Collect(ports, profile, targets[1..], w').snapshot, R.Collect(ports, profile, targets, w).snapshot;
    forall k: nat | 1 <= k < |targets|
      ensures targets[k] == targets[1..][k - 1]
      ensures SeenAt(ports, profile, targets, w, k) == SeenAt(ports, profile, targets[1..], w', k - 1)
      ensures CanBeSeen(ports, profile, targets, w, k) == CanBeSeen(ports, profile, targets[1..], w', k - 1)
    {
      SeenOfRest(ports, profile, targets, w, k);
    }
    if rest.Err? {
      var k: nat :| k < |targets[1..]| && FailsAt(ports, profile, targets[1..], w', k, rest.error);
      assert FailsAt(ports, profile, targets, w, k + 1, c.error);
    } else {
      assert c.value == [R.ToObservation(targets[0], SeenAt(ports, profile, targets, w, 0))] + rest.value;
    }
  }

  /** Discovery's collector: every target as it was seen, those that could not be read or inspected as unavailable. */
  ghost predicate IsGlimpsed<W>(ports: Ports<W>, profile: Profile, targets: seq<Target>, w: W, s: Snapshot) {
    |s| == |targets| && forall k :: 0 <= k < |targets| ==>
      if targets[k] in profile.bindings then R.Pictures(s[k], targets[k], SeenAt(ports, profile, targets, w, k))
      else s[k] == Observation(targets[k], Unavailable, None)
  }

  lemma {:induction false} WorldOfPrefix<W>(ports: Ports<W>, profile: Profile, targets: seq<Target>, w: W, k: nat)
    requires k < |targets|
    ensures WorldAt(ports, profile, targets[..|targets| - 1], w, k) == WorldAt(ports, profile, targets, w, k)
  {
    if k > 0 {
      WorldOfPrefix(ports, profile, targets, w, k - 1);
    }
  }

  lemma {:induction false} CollectAllTells<W>(ports: Ports<W>, profile: Profile, targets: seq<Target>, w: W)
    ensures var (s, w') := D.CollectAll(ports, profile, targets, w);
      IsGlimpsed(ports, profile, targets, w, s) && w' == WorldAt(ports, profile, targets, w, |targets|)
  {
    if targets != [] {
      var last := |targets| - 1;
      CollectAllTells(ports, profile, targets[..last], w);
      forall k: nat | k < |targets|
        ensures WorldAt(ports, profile, targets[..last], w, k) == WorldAt(ports, profile, targets, w, k)
      {
        WorldOfPrefix(ports, profile, targets, w, k);
      }
    }
  }
}

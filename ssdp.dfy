/** The discovery updater (`run_ssdp_updater`): after every discovery round,
    each renderer whose address has not been seen before is forwarded to the
    control panel and remembered; renderers already known are not forwarded
    again. Discovery itself, the channel and the sleep between rounds are not
    part of this model: a round is given as its result, None for a failed scan. */
module SsdpUpdater {
  import opened Common

  /** No two renderers in `rs` share an address. */
  ghost predicate DistinctAddrs(rs: seq<Renderer>) {
    forall i, j :: 0 <= i < j < |rs| ==> rs[i].remoteAddr != rs[j].remoteAddr
  }

  function AddrsOf(rs: seq<Renderer>): set<string> {
    set i | 0 <= i < |rs| :: rs[i].remoteAddr
  }

  lemma AddrsOfConcat(s: seq<Renderer>, t: seq<Renderer>)
    ensures AddrsOf(s + t) == AddrsOf(s) + AddrsOf(t)
  {
    forall a | a in AddrsOf(s + t) ensures a in AddrsOf(s) + AddrsOf(t) {
      var i :| 0 <= i < |s + t| && (s + t)[i].remoteAddr == a;
      if i >= |s| { assert t[i - |s|].remoteAddr == a; }
    }
    forall a | a in AddrsOf(s) ensures a in AddrsOf(s + t) {
      var i :| 0 <= i < |s| && s[i].remoteAddr == a;
      assert (s + t)[i].remoteAddr == a;
    }
    forall a | a in AddrsOf(t) ensures a in AddrsOf(s + t) {
      var i :| 0 <= i < |t| && t[i].remoteAddr == a;
      assert (s + t)[|s| + i].remoteAddr == a;
    }
  }

  lemma AddrsOfSingle(r: Renderer)
    ensures AddrsOf([r]) == {r.remoteAddr}
  {
    assert [r][0].remoteAddr == r.remoteAddr;
  }

  /** The known renderers and those forwarded, after the first `k` renderers
      of one round. */
  function Scan(rmap: map<string, Renderer>, found: seq<Renderer>, k: nat): (r: (map<string, Renderer>, seq<Renderer>))
    requires k <= |found|
  {
    if k == 0 then (rmap, [])
    else
      var (known, sent) := Scan(rmap, found, k - 1);
      var renderer := found[k - 1];
      if renderer.remoteAddr in known then (known, sent)
      else (known[renderer.remoteAddr := renderer], sent + [renderer])
  }

  /** The map only grows: it keeps what it knew and learns every address seen. */
  lemma {:induction false} ScanGrows(rmap: map<string, Renderer>, found: seq<Renderer>, k: nat)
    requires k <= |found|
    ensures var r := Scan(rmap, found, k);
            && (forall a :: a in rmap ==> a in r.0 && r.0[a] == rmap[a])
            && r.0.Keys == rmap.Keys + AddrsOf(found[..k])
  {
    if k > 0 {
      ScanGrows(rmap, found, k - 1);
      assert found[..k] == found[..k - 1] + [found[k - 1]];
      AddrsOfConcat(found[..k - 1], [found[k - 1]]);
      AddrsOfSingle(found[k - 1]);
    }
  }

  /** Only renderers with new addresses are forwarded, each address once and
      remembered as forwarded, and every new address is forwarded. */
  lemma {:induction false} ScanForwardsNewOnce(rmap: map<string, Renderer>, found: seq<Renderer>, k: nat)
    requires k <= |found|
    ensures var r := Scan(rmap, found, k);
            && DistinctAddrs(r.1)
            && (forall i :: 0 <= i < |r.1| ==>
                  && r.1[i].remoteAddr !in rmap && r.1[i] in found[..k]
                  && r.1[i].remoteAddr in r.0 && r.0[r.1[i].remoteAddr] == r.1[i])
            && r.0.Keys - rmap.Keys == AddrsOf(r.1)
  {
    if k > 0 {
      ScanForwardsNewOnce(rmap, found, k - 1);
      ScanGrows(rmap, found, k - 1);
      var (known, sent) := Scan(rmap, found, k - 1);
      var renderer := found[k - 1];
      assert found[..k] == found[..k - 1] + [renderer];
      if renderer.remoteAddr !in known {
        assert (sent + [renderer])[|sent|] == renderer;
        AddrsOfConcat(sent, [renderer]);
        AddrsOfSingle(renderer);
      }
    }
  }

  /** The renderers among the first `k` of `found` that are the first with
      their address and whose address is not in `known`, in discovery order. */
  function FirstSightings(known: set<string>, found: seq<Renderer>, k: nat): seq<Renderer>
    requires k <= |found|
  {
    if k == 0 then []
    else
      var renderer := found[k - 1];
      FirstSightings(known, found, k - 1) +
        if renderer.remoteAddr !in known && renderer.remoteAddr !in AddrsOf(found[..k - 1])
        then [renderer] else []
  }

  /** A round forwards exactly the first sighting of each address it did not
      know, in the order the renderers were discovered. */
  lemma {:induction false} ScanIsFirstSightings(rmap: map<string, Renderer>, found: seq<Renderer>, k: nat)
    requires k <= |found|
    ensures Scan(rmap, found, k).1 == FirstSightings(rmap.Keys, found, k)
  {
    if k > 0 {
      ScanIsFirstSightings(rmap, found, k - 1);
      ScanGrows(rmap, found, k - 1);
    }
  }

  /** First sightings depend only on the renderers looked at. */
  lemma {:induction false} FirstSightingsOfPrefix(known: set<string>, s: seq<Renderer>, t: seq<Renderer>, k: nat)
    requires k <= |s| && k <= |t| && s[..k] == t[..k]
    ensures FirstSightings(known, s, k) == FirstSightings(known, t, k)
  {
    if k > 0 {
      assert s[..k - 1] == s[..k][..k - 1] && t[..k - 1] == t[..k][..k - 1];
      assert s[k - 1] == s[..k][k - 1] && t[k - 1] == t[..k][k - 1];
      FirstSightingsOfPrefix(known, s, t, k - 1);
    }
  }

  /** Scanning `a` then `b` forwards the first sightings in `a`, then those in
      `b` whose addresses were neither known nor seen in `a`. */
  lemma {:induction false} FirstSightingsConcat(known: set<string>, a: seq<Renderer>, b: seq<Renderer>, k: nat)
    requires k <= |b|
    ensures FirstSightings(known, a + b, |a| + k) ==
            FirstSightings(known, a, |a|) + FirstSightings(known + AddrsOf(a), b, k)
  {
    if k == 0 {
      assert (a + b)[..|a|] == a[..|a|];
      FirstSightingsOfPrefix(known, a + b, a, |a|);
    } else {
      FirstSightingsConcat(known, a, b, k - 1);
      var ab, renderer := a + b, b[k - 1];
      assert ab[|a| + k - 1] == renderer;
      assert ab[..|a| + k - 1] == a + b[..k - 1];
      AddrsOfConcat(a, b[..k - 1]);
      var next := if renderer.remoteAddr !in known + AddrsOf(a) && renderer.remoteAddr !in AddrsOf(b[..k - 1])
                  then [renderer] else [];
      assert FirstSightings(known, ab, |a| + k) == FirstSightings(known, ab, |a| + k - 1) + next;
      assert FirstSightings(known + AddrsOf(a), b, k) == FirstSightings(known + AddrsOf(a), b, k - 1) + next;
    }
  }

  /** What a round discovered: nothing when the scan failed. */
  function Found(discovered: Option<seq<Renderer>>): seq<Renderer> {
    if discovered.Some? then discovered.value else []
  }

  /** The renderers discovered in the first `j` rounds, in discovery order. */
  function AllFound(rounds: seq<Option<seq<Renderer>>>, j: nat): seq<Renderer>
    requires j <= |rounds|
  {
    if j == 0 then [] else AllFound(rounds, j - 1) + Found(rounds[j - 1])
  }

  /** A round that starts knowing exactly the addresses found so far forwards
      the first sightings of the rounds so far extended by this one. */
  lemma RoundExtendsFirstSightings(rounds: seq<Option<seq<Renderer>>>, j: nat,
                                   rmap: map<string, Renderer>, sent: seq<Renderer>)
    requires j < |rounds|
    requires rmap.Keys == AddrsOf(AllFound(rounds, j))
    requires sent == FirstSightings({}, AllFound(rounds, j), |AllFound(rounds, j)|)
    ensures var found := Found(rounds[j]);
            var r := Scan(rmap, found, |found|);
            && r.0.Keys == AddrsOf(AllFound(rounds, j + 1))
            && sent + r.1 == FirstSightings({}, AllFound(rounds, j + 1), |AllFound(rounds, j + 1)|)
  {
    var found := Found(rounds[j]);
    assert found[..|found|] == found;
    ScanGrows(rmap, found, |found|);
    ScanIsFirstSightings(rmap, found, |found|);
    var before := AllFound(rounds, j);
    FirstSightingsConcat({}, before, found, |found|);
    assert {} + AddrsOf(before) == rmap.Keys;
    assert AllFound(rounds, j + 1) == before + found;
    assert |before + found| == |before| + |found|;
    AddrsOfConcat(before, found);
  }

  /** A renderer discovered in round `j'` is among those found in any longer
      run of rounds, and so is its address. */
  lemma {:induction false} InAllFound(rounds: seq<Option<seq<Renderer>>>, j: nat, j': nat, r: Renderer)
    requires j' < j <= |rounds| && rounds[j'].Some? && r in rounds[j'].value
    ensures r in AllFound(rounds, j) && r.remoteAddr in AddrsOf(AllFound(rounds, j))
  {
    if j' < j - 1 {
      InAllFound(rounds, j - 1, j', r);
    }
    var s := AllFound(rounds, j);
    assert s == AllFound(rounds, j - 1) + Found(rounds[j - 1]);
    assert r in s;
    var i :| 0 <= i < |s| && s[i] == r;
  }

  /** `r` was discovered in one of the first `j` rounds. */
  ghost predicate DiscoveredBefore(r: Renderer, rounds: seq<Option<seq<Renderer>>>, j: nat) {
    exists j' :: 0 <= j' < j && j' < |rounds| && rounds[j'].Some? && r in rounds[j'].value
  }

  /** One round: forwards the renderers of `discovered` with new addresses and
      returns the updated map and what was forwarded. */
  method DiscoveryRound(rmap: map<string, Renderer>, discovered: Option<seq<Renderer>>)
    returns (known: map<string, Renderer>, sent: seq<Renderer>)
    ensures (known, sent) == Scan(rmap, Found(discovered), |Found(discovered)|)
  {
    var found := Found(discovered);
    known, sent := rmap, [];
    for i := 0 to |found|
      invariant (known, sent) == Scan(rmap, found, i)
    {
      var renderer := found[i];
      if renderer.remoteAddr !in known {
        sent := sent + [renderer];
        known := known[renderer.remoteAddr := renderer];
      }
    }
  }

  /** What the updater knows and has forwarded after the first `j` rounds. */
  ghost predicate UpdaterInv(rounds: seq<Option<seq<Renderer>>>, j: nat,
                             rmap: map<string, Renderer>, sent: seq<Renderer>)
    requires j <= |rounds|
  {
    && DistinctAddrs(sent)
    && rmap.Keys == AddrsOf(sent)
    && (forall i :: 0 <= i < |sent| ==> DiscoveredBefore(sent[i], rounds, j))
    && rmap.Keys == AddrsOf(AllFound(rounds, j))
    && sent == FirstSightings({}, AllFound(rounds, j), |AllFound(rounds, j)|)
  }

  /** Appending a round's forwards keeps the addresses distinct and equal to
      the keys of the map. */
  lemma RoundKeepsDistinct(rmap: map<string, Renderer>, found: seq<Renderer>, sent: seq<Renderer>)
    requires DistinctAddrs(sent) && rmap.Keys == AddrsOf(sent)
    ensures var r := Scan(rmap, found, |found|);
            DistinctAddrs(sent + r.1) && r.0.Keys == AddrsOf(sent + r.1)
  {
    var (after, more) := Scan(rmap, found, |found|);
    ScanGrows(rmap, found, |found|);
    ScanForwardsNewOnce(rmap, found, |found|);
    AddrsOfConcat(sent, more);
    forall i, i' | 0 <= i < i' < |sent + more|
      ensures (sent + more)[i].remoteAddr != (sent + more)[i'].remoteAddr
    {
      if i < |sent| && i' >= |sent| {
        assert (sent + more)[i'] == more[i' - |sent|];
        assert sent[i].remoteAddr in rmap;
      }
    }
  }

  /** Appending round `j`'s forwards keeps every forwarded renderer discovered. */
  lemma RoundKeepsDiscovered(rounds: seq<Option<seq<Renderer>>>, j: nat,
                             rmap: map<string, Renderer>, sent: seq<Renderer>)
    requires j < |rounds|
    requires forall i :: 0 <= i < |sent| ==> DiscoveredBefore(sent[i], rounds, j)
    ensures var found := Found(rounds[j]);
            var more := Scan(rmap, found, |found|).1;
            forall i :: 0 <= i < |sent + more| ==> DiscoveredBefore((sent + more)[i], rounds, j + 1)
  {
    var found := Found(rounds[j]);
    var more := Scan(rmap, found, |found|).1;
    assert found[..|found|] == found;
    ScanForwardsNewOnce(rmap, found, |found|);
    forall i | 0 <= i < |sent + more| ensures DiscoveredBefore((sent + more)[i], rounds, j + 1) {
      if i < |sent| {
        assert DiscoveredBefore(sent[i], rounds, j);
        var j' :| 0 <= j' < j && j' < |rounds| && rounds[j'].Some? && sent[i] in rounds[j'].value;
        assert (sent + more)[i] == sent[i];
      } else {
        assert (sent + more)[i] == more[i - |sent|];
        assert more[i - |sent|] in found[..|found|];
      }
    }
  }

  /** One more round keeps the updater's invariant. */
  lemma RoundKeepsInv(rounds: seq<Option<seq<Renderer>>>, j: nat,
                      rmap: map<string, Renderer>, sent: seq<Renderer>)
    requires j < |rounds| && UpdaterInv(rounds, j, rmap, sent)
    ensures var found := Found(rounds[j]);
            var r := Scan(rmap, found, |found|);
            UpdaterInv(rounds, j + 1, r.0, sent + r.1)
  {
    RoundKeepsDistinct(rmap, Found(rounds[j]), sent);
    RoundKeepsDiscovered(rounds, j, rmap, sent);
    RoundExtendsFirstSightings(rounds, j, rmap, sent);
  }

  /** The updater over a sequence of rounds, from an empty map: what is
      forwarded is the first sighting of each address over all rounds, in
      discovery order; so every address discovered in any round is forwarded,
      none twice, and only discovered renderers. */
  method RunSsdpUpdater(rounds: seq<Option<seq<Renderer>>>) returns (sent: seq<Renderer>)
    ensures DistinctAddrs(sent)
    ensures forall j, r :: 0 <= j < |rounds| && rounds[j].Some? && r in rounds[j].value ==>
              r.remoteAddr in AddrsOf(sent)
    ensures forall i :: 0 <= i < |sent| ==> DiscoveredBefore(sent[i], rounds, |rounds|)
    ensures sent == FirstSightings({}, AllFound(rounds, |rounds|), |AllFound(rounds, |rounds|)|)
  {
    var rmap: map<string, Renderer> := map[];
    sent := [];
    for j := 0 to |rounds|
      invariant UpdaterInv(rounds, j, rmap, sent)
    {
      RoundKeepsInv(rounds, j, rmap, sent);
      var more;
      rmap, more := DiscoveryRound(rmap, rounds[j]);
      sent := sent + more;
    }
    forall j, r | 0 <= j < |rounds| && rounds[j].Some? && r in rounds[j].value
      ensures r.remoteAddr in AddrsOf(sent)
    {
      InAllFound(rounds, |rounds|, j, r);
    }
  }
}

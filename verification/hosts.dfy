/**
  Host identifiers and the `hostname=host_<i>` tag predicates that select
  them, plus the permutation drawn to pick hosts without replacement.
 */
module Hosts {
  import opened Wrappers
  import opened Decimal

  const HostNamePrefix: string := "host_"
  const TagKeyPrefix: string := "hostname="

  /** The simulated host name of index `i`. */
  function HostName(i: nat): string {
    HostNamePrefix + NatToString(i)
  }

  /** The equality predicate on the `hostname` tag that selects host `i`. */
  function HostTag(i: nat): string {
    TagKeyPrefix + HostName(i)
  }

  /** The host index named by a tag predicate, if it is one. */
  function ParseHostTag(t: string): Option<nat> {
    var p := TagKeyPrefix + HostNamePrefix;
    if |t| > |p| && t[..|p|] == p && IsCanonical(t[|p|..]) then Some(ParseNat(t[|p|..]))
    else None
  }

  lemma HostTagRoundTrip(i: nat)
    ensures ParseHostTag(HostTag(i)) == Some(i)
  {
    var p := TagKeyPrefix + HostNamePrefix;
    assert HostTag(i) == p + NatToString(i);
    assert HostTag(i)[|p|..] == NatToString(i);
    ParseNatToString(i);
  }

  /** Parsing accepts exactly the tags that `HostTag` produces. */
  lemma ParseHostTagExact(t: string, i: nat)
    ensures ParseHostTag(t) == Some(i) <==> t == HostTag(i)
  {
    if t == HostTag(i) {
      HostTagRoundTrip(i);
    }
    if ParseHostTag(t) == Some(i) {
      var p := TagKeyPrefix + HostNamePrefix;
      NatToStringParse(t[|p|..]);
      assert t == p + t[|p|..];
    }
  }

  lemma HostTagInjective(i: nat, j: nat)
    ensures HostTag(i) == HostTag(j) ==> i == j
  {
    HostTagRoundTrip(i);
    HostTagRoundTrip(j);
  }

  /** `perm` is a permutation of `[0, n)`, as `rand.Perm(n)` returns. */
  predicate IsPermutation(perm: seq<nat>, n: nat) {
    && |perm| == n
    && (forall k | 0 <= k < n :: perm[k] < n)
    && (forall k, l | 0 <= k < l < n :: perm[k] != perm[l])
  }

  /** One tag predicate per index, in order; the loop of `getHostWhere`. */
  function HostTags(nn: seq<nat>): (tags: seq<string>)
    ensures |tags| == |nn|
    ensures forall k | 0 <= k < |nn| :: ParseHostTag(tags[k]) == Some(nn[k])
  {
    if |nn| == 0 then []
    else
      var last := nn[|nn| - 1];
      HostTagRoundTrip(last);
      HostTags(nn[..|nn| - 1]) + [HostTag(last)]
  }

  /**
    The tag predicates for the first `nhosts` hosts of the drawn permutation:
    `nhosts` distinct predicates, each naming a host below `scaleVar`, in
    the order of the permutation's prefix.
   */
  function GetHostWhere(scaleVar: nat, nhosts: nat, perm: seq<nat>): (tagSet: seq<string>)
    requires IsPermutation(perm, scaleVar)
    requires nhosts <= scaleVar
    ensures SelectsHosts(tagSet, scaleVar, nhosts, perm)
  {
    var tags := HostTags(perm[..nhosts]);
    assert forall k | 0 <= k < nhosts :: ParseHostTag(tags[k]) == Some(perm[k]);
    tags
  }

  /**
    `tagSet` holds exactly `nhosts` pairwise distinct `hostname=host_<i>`
    predicates whose indices are the first `nhosts` entries of `perm`, each
    below `scaleVar`.
   */
  predicate SelectsHosts(tagSet: seq<string>, scaleVar: nat, nhosts: nat, perm: seq<nat>)
  {
    && |tagSet| == nhosts
    && nhosts <= |perm|
    && (forall k | 0 <= k < nhosts :: ParseHostTag(tagSet[k]) == Some(perm[k]) && perm[k] < scaleVar)
    && (forall k, l | 0 <= k < l < nhosts :: tagSet[k] != tagSet[l])
  }

  /** A host selection is determined by the permutation prefix it follows. */
  lemma SelectsHostsUnique(a: seq<string>, b: seq<string>, scaleVar: nat, nhosts: nat, perm: seq<nat>)
    requires SelectsHosts(a, scaleVar, nhosts, perm)
    requires SelectsHosts(b, scaleVar, nhosts, perm)
    ensures a == b
  {
    forall k | 0 <= k < nhosts
      ensures a[k] == b[k]
    {
      ParseHostTagExact(a[k], perm[k]);
      ParseHostTagExact(b[k], perm[k]);
    }
  }

  /** The host indices a tag group names. */
  function SelectedHosts(tagSet: seq<string>): set<nat> {
    set t | t in tagSet && ParseHostTag(t).Some? :: ParseHostTag(t).value
  }

  /** The first `n` entries of `perm`, as a set. */
  function PrefixSet(perm: seq<nat>, n: nat): set<nat>
    requires n <= |perm|
  {
    set k | 0 <= k < n :: perm[k]
  }

  lemma {:induction false} DistinctPrefixSize(perm: seq<nat>, n: nat)
    requires n <= |perm|
    requires forall k, l | 0 <= k < l < n :: perm[k] != perm[l]
    ensures |PrefixSet(perm, n)| == n
  {
    if n > 0 {
      DistinctPrefixSize(perm, n - 1);
      assert PrefixSet(perm, n) == PrefixSet(perm, n - 1) + {perm[n - 1]};
      assert perm[n - 1] !in PrefixSet(perm, n - 1);
    }
  }

  /** Distinct tags name distinct hosts, and the hosts named are the permutation prefix. */
  lemma SelectionNamesPrefix(tagSet: seq<string>, scaleVar: nat, nhosts: nat, perm: seq<nat>)
    requires SelectsHosts(tagSet, scaleVar, nhosts, perm)
    ensures forall k, l | 0 <= k < l < nhosts :: perm[k] != perm[l]
    ensures SelectedHosts(tagSet) == PrefixSet(perm, nhosts)
  {
    forall k | 0 <= k < nhosts
      ensures tagSet[k] == HostTag(perm[k])
    {
      ParseHostTagExact(tagSet[k], perm[k]);
    }
    forall i | i in PrefixSet(perm, nhosts)
      ensures i in SelectedHosts(tagSet)
    {
      var k :| 0 <= k < nhosts && perm[k] == i;
      assert tagSet[k] in tagSet;
    }
  }

  /** A selection is a sample without replacement: `nhosts` distinct hosts, all below `scaleVar`. */
  lemma SelectionIsSample(tagSet: seq<string>, scaleVar: nat, nhosts: nat, perm: seq<nat>)
    requires SelectsHosts(tagSet, scaleVar, nhosts, perm)
    ensures |SelectedHosts(tagSet)| == nhosts
    ensures forall i | i in SelectedHosts(tagSet) :: i < scaleVar
  {
    SelectionNamesPrefix(tagSet, scaleVar, nhosts, perm);
    DistinctPrefixSize(perm, nhosts);
  }
}

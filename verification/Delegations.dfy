/** The power bonded to several delegatees together is part of all the bonded power, and so far
    inside int64 as the supply cap keeps that. */
module Delegations {
  import opened Base
  import opened Sums
  import opened Stake
  import opened StakeInvariants

  ghost function PowerOfAll(dm: map<Address, Delegatee>, ts: seq<Address>): int
    requires forall t <- ts :: t in dm
  {
    if ts == [] then 0 else dm[ts[0]].sum + PowerOfAll(dm, ts[1..])
  }

  ghost function LinksInto(vp: map<Link, VPower>, ts: seq<Address>): set<Link> { set l | l in vp && l.to in ts }

  /** The links to `to` carry what its delegators have bonded. */
  lemma {:induction false} LinksCarrySum(vp: map<Link, VPower>, to: Address, ds: seq<Address>)
    requires NoDuplicates(ds)
    ensures Total(vp, Power) == DelegatorSum(vp, to, ds) + Total(vp - LinksTo(to, ds), Power)
  {
    if ds == [] {
      assert vp - LinksTo(to, ds) == vp;
    } else {
      var n := |ds| - 1;
      var d, rest := ds[n], ds[..n];
      NoDuplicatesPairwise(ds);
      NoDuplicatesPairwise(rest);
      LinksCarrySum(vp, to, rest);
      TotalRemove(vp - LinksTo(to, rest), Power, Link(d, to));
      assert d !in rest;
      assert LinksTo(to, ds) == LinksTo(to, rest) + {Link(d, to)};
      assert vp - LinksTo(to, rest) - {Link(d, to)} == vp - LinksTo(to, ds);
    }
  }

  lemma LinksOfOne(s: Stakes, to: Address)
    requires Consistent(s) && to in s.delegatees
    ensures LinksInto(s.vpowers, [to]) == LinksTo(to, s.delegatees[to].delegators)
  {
    forall l: Link ensures l in LinksInto(s.vpowers, [to]) <==> l in LinksTo(to, s.delegatees[to].delegators) {
      assert l in s.vpowers <==> Lists(s.delegatees, l);
      assert l == Link(l.from, l.to);
    }
  }

  /** Taking out the links of one more delegatee takes out its power. */
  lemma OneMoreDelegatee(s: Stakes, rest: seq<Address>, t: Address)
    requires Consistent(s) && t in s.delegatees && t !in rest
    ensures Total(s.vpowers - LinksInto(s.vpowers, rest), Power)
         == s.delegatees[t].sum + Total(s.vpowers - LinksInto(s.vpowers, rest + [t]), Power)
  {
    LinksOfOne(s, t);
    ConsistentParts(s);
    var vp, d := s.vpowers, s.delegatees[t];
    assert DelegateeOk(vp, t, d);
    hide Consistent; hide Linked; hide VPowersOk; hide DelegateesOk; hide FrozensOk;
    var vp1 := vp - LinksInto(vp, rest);
    LinksCarrySum(vp1, t, d.delegators);
    DelegatorSumFrame(vp, vp1, t, d.delegators);
    assert LinksInto(vp, rest + [t]) == LinksInto(vp, rest) + LinksInto(vp, [t]);
    assert vp1 - LinksTo(t, d.delegators) == vp - LinksInto(vp, rest + [t]);
  }

  lemma {:induction false} BondedSplits(s: Stakes, ts: seq<Address>)
    requires Consistent(s) && NoDuplicates(ts) && forall t <- ts :: t in s.delegatees
    ensures Bonded(s) == PowerOfAll(s.delegatees, ts) + Total(s.vpowers - LinksInto(s.vpowers, ts), Power)
  {
    hide Consistent;
    if ts == [] {
      assert s.vpowers - LinksInto(s.vpowers, ts) == s.vpowers;
    } else {
      var t, rest := ts[0], ts[1..];
      NoDuplicatesTail(ts);
      BondedSplits(s, rest);
      OneMoreDelegatee(s, rest, t);
      assert ts == [t] + rest;
      assert LinksInto(s.vpowers, rest + [t]) == LinksInto(s.vpowers, ts);
    }
  }

  lemma PowersAreNonNegative(vp: map<Link, VPower>, l: Link)
    requires VPowersOk(vp)
    ensures 0 <= At(vp, Power, l) <= Total(vp, Power)
  {
    forall x <- vp ensures Power(vp[x]) >= 0 {
      assert VPowerOk(vp[x]);
      ChunkSumNonNegative(vp[x].chunks);
    }
    TotalAtLeastPart(vp, Power, l);
  }

  /** Distinct delegatees have, together, no more than all the bonded power. */
  lemma {:induction false} DelegateesWithinBonded(s: Stakes, ts: seq<Address>)
    requires Consistent(s) && NoDuplicates(ts) && forall t <- ts :: t in s.delegatees
    ensures PowerOfAll(s.delegatees, ts) <= Bonded(s)
  {
    BondedSplits(s, ts);
    ConsistentParts(s);
    var vp := s.vpowers - LinksInto(s.vpowers, ts);
    assert VPowersOk(vp);
    PowersAreNonNegative(vp, Link(0, 0));
  }

  lemma {:induction false} DelegatorSumWithin(vp: map<Link, VPower>, to: Address, ds: seq<Address>)
    requires VPowersOk(vp)
    ensures DelegatorSum(vp, to, ds) >= 0
    ensures forall d <- ds :: At(vp, Power, Link(d, to)) <= DelegatorSum(vp, to, ds)
  {
    if ds != [] {
      DelegatorSumWithin(vp, to, ds[..|ds| - 1]);
      PowersAreNonNegative(vp, Link(ds[|ds| - 1], to));
    }
  }

  /** A delegatee's own power is part of its power, which is part of all the bonded power. */
  lemma OneWithinBonded(s: Stakes, to: Address)
    requires Consistent(s) && to in s.delegatees
    ensures 0 <= s.delegatees[to].self <= s.delegatees[to].sum <= Bonded(s)
  {
    ConsistentParts(s);
    var d := s.delegatees[to];
    DelegatorSumWithin(s.vpowers, to, d.delegators);
    PowersAreNonNegative(s.vpowers, Link(to, to));
    var ts := [to];
    assert ts[1..] == [] && PowerOfAll(s.delegatees, ts) == d.sum + PowerOfAll(s.delegatees, ts[1..]);
    DelegateesWithinBonded(s, ts);
  }
}

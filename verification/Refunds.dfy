/** ctrlers/vpower/ctrler_vpower.go, _unfreezePowerChunk: at the end of each block the frozen stake
    that falls due is paid back to its owners. */
module Refunds {
  import opened Base
  import opened Sums
  import opened Accounts
  import opened Stake
  import opened StakeInvariants
  import opened StakeOwners
  import Keys

  /** `PowerToAmount` through uint64 and uint256. */
  function RefundAmount(power: int): nat { Mul256(power % TWO64, AMOUNT_PER_POWER) }

  lemma RefundAmountExact(power: int)
    requires 0 <= power < TWO63
    ensures RefundAmount(power) == PowerToAmount(power) < TWO255
  {
  }

  ghost function DueOwners(fz: map<Due, Frozen>, h: int): set<Address> { set k | k in fz && k.height == h :: k.owner }

  /** Pay the given owners what falls due to them at `h`, in order. */
  ghost function Refund(m: Accts, fz: map<Due, Frozen>, h: int, owners: seq<Address>): Result<Accts, AcctError>
    requires forall o <- owners :: Due(h, o) in fz
    decreases |owners|
  {
    if owners == [] then Success(m)
    else
      var m' :- Reward(m, owners[0], RefundAmount(fz[Due(h, owners[0])].refund));
      Refund(m', fz, h, owners[1..])
  }

  ghost function Unfreeze(m: Accts, s: Stakes, h: int): Result<(Accts, Stakes), AcctError> {
    Keys.OrderedIsAscending(DueOwners(s.frozen, h));
    var m' :- Refund(m, s.frozen, h, Keys.Ordered(DueOwners(s.frozen, h)));
    Success((m', AfterRefund(s, h)))
  }

  // ----- sums

  ghost function DueSum(fz: map<Due, Frozen>, h: int, owners: seq<Address>): int
    requires forall o <- owners :: Due(h, o) in fz
    decreases |owners|
  {
    if owners == [] then 0 else fz[Due(h, owners[0])].refund + DueSum(fz, h, owners[1..])
  }

  ghost function DueKeys(h: int, owners: seq<Address>): set<Due> { set o | o in owners :: Due(h, o) }

  lemma {:induction false} DueSumIsRemoved(fz: map<Due, Frozen>, h: int, owners: seq<Address>)
    requires Keys.Ascending(owners) && forall o <- owners :: Due(h, o) in fz
    ensures Total(fz - DueKeys(h, owners), RefundOf) == Total(fz, RefundOf) - DueSum(fz, h, owners)
    decreases |owners|
  {
    if owners == [] {
      assert fz - DueKeys(h, owners) == fz;
    } else {
      var k, rest := Due(h, owners[0]), owners[1..];
      DueSumIsRemoved(fz, h, rest);
      TotalRemove(fz - DueKeys(h, rest), RefundOf, k);
      FirstIsNew(h, owners);
      assert fz - DueKeys(h, rest) - {k} == fz - DueKeys(h, owners);
    }
  }

  lemma FirstIsNew(h: int, owners: seq<Address>)
    requires owners != [] && Keys.Ascending(owners)
    ensures Due(h, owners[0]) !in DueKeys(h, owners[1..])
    ensures DueKeys(h, owners) == DueKeys(h, owners[1..]) + {Due(h, owners[0])}
  {
    forall o | o in owners[1..] ensures o != owners[0] {
      var i :| 0 <= i < |owners| - 1 && owners[1..][i] == o;
      assert owners[i + 1] == o;
    }
  }

  lemma DueSumLeavesRest(s: Stakes, h: int)
    requires Keys.Ascending(Keys.Ordered(DueOwners(s.frozen, h)))
    requires forall o :: o in Keys.Ordered(DueOwners(s.frozen, h)) <==> o in DueOwners(s.frozen, h)
    ensures FrozenPower(AfterRefund(s, h)) == FrozenPower(s) - DueSum(s.frozen, h, Keys.Ordered(DueOwners(s.frozen, h)))
  {
    var owners := Keys.Ordered(DueOwners(s.frozen, h));
    DueSumIsRemoved(s.frozen, h, owners);
    assert AfterRefund(s, h).frozen == s.frozen - DueKeys(h, owners);
  }

  // ----- paying

  ghost predicate Payable(fz: map<Due, Frozen>, h: int, owners: seq<Address>, m: Accts) {
    && (forall o <- owners :: Due(h, o) in fz && o in m && fz[Due(h, o)].refund >= 0)
    && Keys.Ascending(owners)
  }

  lemma {:induction false} DueSumNonNegative(fz: map<Due, Frozen>, h: int, owners: seq<Address>)
    requires forall o <- owners :: Due(h, o) in fz && fz[Due(h, o)].refund >= 0
    ensures DueSum(fz, h, owners) >= 0
    decreases |owners|
  {
    if owners != [] { DueSumNonNegative(fz, h, owners[1..]); }
  }

  ghost function PaidTo(fz: map<Due, Frozen>, h: int, owners: seq<Address>, a: Address): int
    requires forall o <- owners :: Due(h, o) in fz
  {
    if a in owners then PowerToAmount(fz[Due(h, a)].refund) else 0
  }

  lemma {:induction false} RefundPays(m: Accts, fz: map<Due, Frozen>, h: int, owners: seq<Address>)
    requires Payable(fz, h, owners, m)
    requires DueSum(fz, h, owners) < TWO63 && Money(m) + PowerToAmount(DueSum(fz, h, owners)) < TWO255
    ensures Refund(m, fz, h, owners).Success?
    ensures var m' := Refund(m, fz, h, owners).value;
      && Money(m') == Money(m) + PowerToAmount(DueSum(fz, h, owners)) && m'.Keys == m.Keys
      && (forall a :: a in m ==> m'[a] == m[a].(balance := m[a].balance + PaidTo(fz, h, owners, a)))
    decreases |owners|
  {
    if owners != [] {
      var o, rest := owners[0], owners[1..];
      var p := fz[Due(h, o)].refund;
      DueSumNonNegative(fz, h, rest);
      RefundAmountExact(p);
      CreditAdds(m, o, PowerToAmount(p));
      var m1 := Reward(m, o, RefundAmount(p)).value;
      assert m1.Keys == m.Keys;
      FirstIsNew(h, owners);
      assert o !in rest by { assert Due(h, o) !in DueKeys(h, rest); }
      RefundPays(m1, fz, h, rest);
    }
  }

  /** Refunding fails, halting the chain, exactly when some owner of stake that falls due has no
      account. */
  lemma {:induction false} RefundFailsIff(m: Accts, fz: map<Due, Frozen>, h: int, owners: seq<Address>)
    requires forall o <- owners :: Due(h, o) in fz && 0 <= fz[Due(h, o)].refund < TWO63
    ensures Refund(m, fz, h, owners).Success? <==> forall o <- owners :: o in m
    decreases |owners|
  {
    if owners != [] {
      RefundAmountExact(fz[Due(h, owners[0])].refund);
      assert owners[0] in owners;
      if owners[0] in m {
        var m1 := Reward(m, owners[0], RefundAmount(fz[Due(h, owners[0])].refund)).value;
        assert m1.Keys == m.Keys;
        RefundFailsIff(m1, fz, h, owners[1..]);
        assert forall o :: o in owners <==> o == owners[0] || o in owners[1..];
      }
    }
  }

  /** The power that falls due to `a` at `h`. */
  ghost function DueTo(s: Stakes, h: int, a: Address): int {
    if Due(h, a) in s.frozen then s.frozen[Due(h, a)].refund else 0
  }

  /** With every owner holding an account and the power in range, the frozen stake due at `h` is
      paid in full to its owners, is no longer frozen, and everybody else's account and every other
      frozen entry stay as they were. */
  lemma UnfreezePaysOwners(m: Accts, s: Stakes, h: int)
    requires OwnedBy(s, m.Keys) && FrozensOk(s.frozen)
    requires FrozenPower(s) < TWO63 && Money(m) + PowerToAmount(FrozenPower(s)) < TWO255
    ensures Unfreeze(m, s, h).Success?
    ensures var (m', s') := Unfreeze(m, s, h).value;
      && Money(m') + PowerToAmount(FrozenPower(s')) == Money(m) + PowerToAmount(FrozenPower(s))
      && m'.Keys == m.Keys && s' == AfterRefund(s, h)
      && (forall a :: a in m ==>
            m'[a] == m[a].(balance := m'[a].balance) && m'[a].balance == m[a].balance + PowerToAmount(DueTo(s, h, a)))
  {
    var owners := Keys.Ordered(DueOwners(s.frozen, h));
    Keys.OrderedIsAscending(DueOwners(s.frozen, h));
    forall k | k in s.frozen ensures s.frozen[k].refund >= 0 { ChunkSumNonNegative(s.frozen[k].chunks); }
    DueSumLeavesRest(s, h);
    RestNonNegative(AfterRefund(s, h).frozen);
    RefundPays(m, s.frozen, h, owners);
    forall a | a in m ensures a in owners <==> Due(h, a) in s.frozen {
      assert Due(h, a) in s.frozen ==> Due(h, a).owner in DueOwners(s.frozen, h);
    }
  }

  lemma {:induction false} RestNonNegative(fz: map<Due, Frozen>)
    requires forall k <- fz :: fz[k].refund >= 0
    ensures Total(fz, RefundOf) >= 0
  {
    TotalAtLeastPart(fz, RefundOf, Due(0, 0));
  }

  /** After EndBlock(h) nothing that was due at or before `h` remains, and what falls due later is
      untouched. */
  lemma RefundLeavesLater(s: Stakes, h: int)
    requires DueAfter(s, h - 1)
    ensures DueAfter(AfterRefund(s, h), h)
    ensures forall k :: k in s.frozen && k.height != h ==>
      k in AfterRefund(s, h).frozen && AfterRefund(s, h).frozen[k] == s.frozen[k]
  {
  }

  lemma RefundKeepsBooks(s: Stakes, h: int, owners: set<Address>)
    requires Consistent(s) && OwnedBy(s, owners)
    ensures Consistent(AfterRefund(s, h)) && OwnedBy(AfterRefund(s, h), owners)
    ensures Bonded(AfterRefund(s, h)) == Bonded(s)
  {
    ConsistentParts(s);
  }
}

/** ledger/v1/ledger_keys.go: the key layouts that prefix scans rely on. */
module LedgerKeys {
  import opened Base
  import opened Ledger

  const VPOWER_PREFIX: Byte := 0x21
  const FROZEN_PREFIX: Byte := 0x22

  /** `binary.BigEndian.PutUint64` for `n` bytes. */
  function BigEndian(x: nat, n: nat): (b: Bytes)
    ensures |b| == n
  {
    if n == 0 then [] else BigEndian(x / 256, n - 1) + [(x % 256) as Byte]
  }

  function Power256(n: nat): nat { if n == 0 then 1 else 256 * Power256(n - 1) }

  /** Distinct numbers of the given width have distinct encodings. */
  lemma {:induction false} BigEndianIsInjective(x: nat, y: nat, n: nat)
    requires x < Power256(n) && y < Power256(n) && BigEndian(x, n) == BigEndian(y, n)
    ensures x == y
  {
    if n > 0 {
      var ex, ey := BigEndian(x, n), BigEndian(y, n);
      assert ex[..n - 1] == BigEndian(x / 256, n - 1) && ey[..n - 1] == BigEndian(y / 256, n - 1);
      assert ex[n - 1] as int == x % 256 && ey[n - 1] as int == y % 256;
      BigEndianIsInjective(x / 256, y / 256, n - 1);
    }
  }

  function VPowerKey(from: Bytes, to: Bytes): Key { [VPOWER_PREFIX] + from + to }

  /** prefix(1) | height(8) | owner(20); without an owner it is the scan prefix of that height. */
  function FrozenKey(height: nat, owner: Bytes): Key { [FROZEN_PREFIX] + BigEndian(height, 8) + owner }

  lemma Width64()
    ensures Power256(8) == TWO64
  {
    assert Power256(2) == 65536;
    assert Power256(4) == 256 * 256 * Power256(2);
    assert Power256(6) == 256 * 256 * Power256(4);
    assert Power256(8) == 256 * 256 * Power256(6);
  }

  /** The scan for a refund height finds exactly the entries due at that height, and bytes 9 to 29
      of the key are the owner's address. */
  lemma FrozenScanSelectsHeight(height: nat, height': nat, owner: Bytes)
    requires height < TWO64 && height' < TWO64 && |owner| == 20
    ensures HasPrefix(FrozenKey(height', owner), FrozenKey(height, [])) <==> height == height'
    ensures FrozenKey(height', owner)[9..29] == owner
  {
    var p, k := FrozenKey(height, []), FrozenKey(height', owner);
    assert p[1..9] == BigEndian(height, 8) && k[1..9] == BigEndian(height', 8);
    assert |p| == 9 && |k| == 29;
    if HasPrefix(k, p) {
      assert p[1..9] == k[..9][1..9] == k[1..9];
      Width64();
      BigEndianIsInjective(height, height', 8);
    }
    assert k[..9] == [FROZEN_PREFIX] + BigEndian(height', 8);
    assert p == [FROZEN_PREFIX] + BigEndian(height, 8);
  }

  /** The scan for a delegator finds exactly its own voting powers, and a voting power's key
      determines both of its addresses. */
  lemma VPowerScanSelectsDelegator(from: Bytes, from': Bytes, to: Bytes, to': Bytes)
    requires |from| == 20 && |from'| == 20 && |to| == 20 && |to'| == 20
    ensures HasPrefix(VPowerKey(from', to'), VPowerKey(from, [])) <==> from == from'
    ensures VPowerKey(from, to) == VPowerKey(from', to') ==> from == from' && to == to'
  {
    var p, k, k' := VPowerKey(from, []), VPowerKey(from, to), VPowerKey(from', to');
    assert p[1..21] == from && k[1..21] == from && k'[1..21] == from';
    assert k[21..41] == to && k'[21..41] == to';
    assert |p| == 21;
    if HasPrefix(k', p) {
      assert k'[1..21] == k'[..21][1..21];
    }
    if from == from' {
      assert k'[..21] == p;
    }
  }
}

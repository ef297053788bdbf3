/** ctrlers/vpower: the stake ledger as a value, and what bonding, unbonding, freezing, slashing
    and jailing do to it. Every internal lookup that can fail in the source fails here too. */
module Stake {
  import opened Base

  type PubKey = Bytes

  datatype Chunk = Chunk(power: int, height: int, txHash: Hash)

  /** The chunks one delegator has bonded to one delegatee, with their cached sum. */
  datatype VPower = VPower(sum: int, chunks: seq<Chunk>)

  datatype Delegatee = Delegatee(pubKey: PubKey, sum: int, self: int, delegators: seq<Address>)

  datatype Frozen = Frozen(refund: int, chunks: seq<Chunk>)

  datatype Link = Link(from: Address, to: Address)

  datatype Due = Due(height: int, owner: Address)

  datatype Stakes = Stakes(
    delegatees: map<Address, Delegatee>,
    vpowers: map<Link, VPower>,
    frozen: map<Due, Frozen>,
    missed: map<Address, int>)

  function Missed(s: Stakes, a: Address): int { if a in s.missed then s.missed[a] else 0 }

  function Chunks(s: Stakes, l: Link): seq<Chunk> { if l in s.vpowers then s.vpowers[l].chunks else [] }

  datatype StakeError = NotFoundDelegatee | NotFoundStake | NotFoundChunk

  const EMPTY := Stakes(map[], map[], map[], map[])

  // ----- chunk lists

  function ChunkSum(cs: seq<Chunk>): int {
    if cs == [] then 0 else ChunkSum(cs[..|cs| - 1]) + cs[|cs| - 1].power
  }

  function RemoveAt<T>(s: seq<T>, i: nat): seq<T>
    requires i < |s|
  {
    s[..i] + s[i + 1..]
  }

  /** The last chunk with the given hash, or -1. */
  function LastChunk(cs: seq<Chunk>, h: Hash): (i: int)
    ensures -1 <= i < |cs|
    ensures i >= 0 ==> cs[i].txHash == h
    ensures i < 0 ==> forall c <- cs :: c.txHash != h
  {
    if cs == [] then -1
    else if cs[|cs| - 1].txHash == h then |cs| - 1
    else LastChunk(cs[..|cs| - 1], h)
  }

  /** The first chunk with the given hash: what validation looks at. */
  function FirstChunk(cs: seq<Chunk>, h: Hash): (r: Option<Chunk>)
    ensures r.Some? ==> r.value in cs && r.value.txHash == h
    ensures r.None? ==> forall c <- cs :: c.txHash != h
  {
    if cs == [] then None
    else if cs[0].txHash == h then Some(cs[0])
    else FirstChunk(cs[1..], h)
  }

  function LastIndex(ds: seq<Address>, a: Address): (i: int)
    ensures -1 <= i < |ds|
    ensures i >= 0 ==> ds[i] == a
    ensures i < 0 ==> a !in ds
  {
    if ds == [] then -1
    else if ds[|ds| - 1] == a then |ds| - 1
    else LastIndex(ds[..|ds| - 1], a)
  }

  function WithoutDelegator(ds: seq<Address>, a: Address): seq<Address> {
    if LastIndex(ds, a) < 0 then ds else RemoveAt(ds, LastIndex(ds, a))
  }

  // ----- bonding

  function NewDelegatee(pubKey: PubKey): Delegatee { Delegatee(pubKey, 0, 0, []) }

  /** bondPowerChunk: append the chunk to the delegator's list and credit the delegatee. */
  function BondChunk(s: Stakes, to: Address, d: Delegatee, from: Address, v: VPower, c: Chunk): Stakes {
    s.(vpowers := s.vpowers[Link(from, to) := VPower(v.sum + c.power, v.chunks + [c])],
       delegatees := s.delegatees[to := d.(
         sum := d.sum + c.power,
         self := if from == to then d.self + c.power else d.self,
         delegators := if from in d.delegators then d.delegators else d.delegators + [from])])
  }

  /** execBonding: a sender may only create the delegatee that carries its own address. */
  function Bond(s: Stakes, senderKey: PubKey, from: Address, to: Address, c: Chunk): Result<Stakes, StakeError> {
    if to !in s.delegatees && from != to then Failure(NotFoundDelegatee)
    else
      var d := if to in s.delegatees then s.delegatees[to] else NewDelegatee(senderKey);
      if from !in d.delegators then Success(BondChunk(s, to, d, from, VPower(0, []), c))
      else if Link(from, to) !in s.vpowers then Failure(NotFoundStake)
      else Success(BondChunk(s, to, d, from, s.vpowers[Link(from, to)], c))
  }

  datatype GenesisValidator = GenesisValidator(pubKey: PubKey, addr: Address, power: int)

  /** InitLedger: each genesis validator bonds to itself. */
  function Genesis(s: Stakes, vals: seq<GenesisValidator>): Stakes {
    if vals == [] then s
    else
      var v := vals[|vals| - 1];
      BondChunk(Genesis(s, vals[..|vals| - 1]), v.addr, NewDelegatee(v.pubKey), v.addr, VPower(0, []),
          Chunk(v.power, 1, 0))
  }

  // ----- unbonding, freezing

  /** unbondPowerChunk: take the chunk out of the delegator's list and debit the delegatee. */
  function UnbondChunk(s: Stakes, from: Address, to: Address, h: Hash): Result<(Stakes, Chunk), StakeError> {
    if to !in s.delegatees then Failure(NotFoundDelegatee)
    else if Link(from, to) !in s.vpowers then Failure(NotFoundStake)
    else
      var v := s.vpowers[Link(from, to)];
      var i := LastChunk(v.chunks, h);
      if i < 0 then Failure(NotFoundChunk)
      else
        var c := v.chunks[i];
        var rest := RemoveAt(v.chunks, i);
        var d := s.delegatees[to];
        var d' := d.(sum := d.sum - c.power,
                     self := if from == to then d.self - c.power else d.self,
                     delegators := if rest == [] then WithoutDelegator(d.delegators, from) else d.delegators);
        var vpowers' := if rest == [] then s.vpowers - {Link(from, to)}
                        else s.vpowers[Link(from, to) := VPower(v.sum - c.power, rest)];
        Success((s.(vpowers := vpowers', delegatees := s.delegatees[to := d']), c))
  }

  /** freezePowerChunk and freezePowerChunkList: queue chunks for refund at `height`. */
  function Freeze(s: Stakes, owner: Address, cs: seq<Chunk>, height: int): Stakes {
    var k := Due(height, owner);
    var f := if k in s.frozen then s.frozen[k] else Frozen(0, []);
    s.(frozen := s.frozen[k := Frozen(f.refund + ChunkSum(cs), f.chunks + cs)])
  }

  /** Freeze everything that the delegators `ds` have bonded to `to`. */
  function ReleaseAll(s: Stakes, to: Address, ds: seq<Address>, height: int): Result<Stakes, StakeError>
    decreases |ds|
  {
    if ds == [] then Success(s)
    else if Link(ds[0], to) !in s.vpowers then Failure(NotFoundStake)
    else
      var s' := Freeze(s, ds[0], s.vpowers[Link(ds[0], to)].chunks, height);
      ReleaseAll(s'.(vpowers := s.vpowers - {Link(ds[0], to)}), to, ds[1..], height)
  }

  /** Freeze a delegatee's whole stake and drop the delegatee. */
  function Evict(s: Stakes, to: Address, height: int): Result<Stakes, StakeError>
    requires to in s.delegatees
  {
    var s' :- ReleaseAll(s, to, s.delegatees[to].delegators, height);
    Success(s'.(delegatees := s'.delegatees - {to}))
  }

  /** exeUnbonding: freeze the chunk; a delegatee left without self power is dropped. */
  function Unbond(s: Stakes, from: Address, to: Address, h: Hash, refundHeight: int): Result<Stakes, StakeError> {
    var (s', c) :- UnbondChunk(s, from, to, h);
    var s'' := Freeze(s', from, [c], refundHeight);
    if s''.delegatees[to].self == 0 then Evict(s'', to, refundHeight) else Success(s'')
  }

  /** What remains frozen once the entries due at `height` have been refunded. */
  function AfterRefund(s: Stakes, height: int): Stakes {
    s.(frozen := map k | k in s.frozen && k.height != height :: s.frozen[k])
  }

  // ----- punishment

  /** Computed in int64. */
  function Slashed(power: int, rate: int): int { Percent64(power, rate) }

  function SlashChunks(cs: seq<Chunk>, rate: int): seq<Chunk> {
    seq(|cs|, i requires 0 <= i < |cs| => cs[i].(power := cs[i].power - Slashed(cs[i].power, rate)))
  }

  function SlashedSum(cs: seq<Chunk>, rate: int): int {
    if cs == [] then 0 else SlashedSum(cs[..|cs| - 1], rate) + Slashed(cs[|cs| - 1].power, rate)
  }

  function SlashVPower(v: VPower, rate: int): VPower {
    VPower(v.sum - SlashedSum(v.chunks, rate), SlashChunks(v.chunks, rate))
  }

  /** Slash every chunk that the delegators `ds` have bonded to `to`. */
  function SlashAll(s: Stakes, to: Address, ds: seq<Address>, rate: int): Result<(Stakes, int), StakeError>
    requires to in s.delegatees
    decreases |ds|
  {
    if ds == [] then Success((s, 0))
    else if Link(ds[0], to) !in s.vpowers then Failure(NotFoundStake)
    else
      var v := s.vpowers[Link(ds[0], to)];
      var cut := SlashedSum(v.chunks, rate);
      var d := s.delegatees[to];
      var d' := d.(sum := d.sum - cut, self := if ds[0] == to then d.self - cut else d.self);
      var s' := s.(vpowers := s.vpowers[Link(ds[0], to) := SlashVPower(v, rate)],
                   delegatees := s.delegatees[to := d']);
      var (s'', more) :- SlashAll(s', to, ds[1..], rate);
      Success((s'', cut + more))
  }

  /** doSlash. */
  function Slash(s: Stakes, to: Address, rate: int): Result<(Stakes, int), StakeError> {
    if to !in s.delegatees then Failure(NotFoundDelegatee)
    else SlashAll(s, to, s.delegatees[to].delegators, rate)
  }

  datatype Vote = Vote(validator: Address, signed: bool)

  /** One vote of the last commit: an unsigned one is counted and may jail the validator. */
  function CountVote(s: Stakes, v: Vote, allowedDown: int, refundHeight: int): Result<Stakes, StakeError> {
    if v.signed then Success(s)
    else
      var count := (if v.validator in s.missed then s.missed[v.validator] else 0) + 1;
      var s' := s.(missed := s.missed[v.validator := count]);
      if count < allowedDown || v.validator !in s'.delegatees then Success(s')
      else Evict(s', v.validator, refundHeight)
  }

  function CountVotes(s: Stakes, vs: seq<Vote>, allowedDown: int, refundHeight: int): Result<Stakes, StakeError>
    decreases |vs|
  {
    if vs == [] then Success(s)
    else
      var s' :- CountVote(s, vs[0], allowedDown, refundHeight);
      CountVotes(s', vs[1..], allowedDown, refundHeight)
  }
}

/**
 * The composite key of a channel membership: a channel id and a user id, each a UUID
 * that may be null, with Java's value equality and hash code.
 */
module ChannelMembers {
  import opened Common

  /** `java.util.UUID`: two 64-bit halves. */
  datatype Uuid = Uuid(mostSigBits: bv64, leastSigBits: bv64)

  /** `UUID.hashCode`: the two halves xor-ed, then the upper and lower 32 bits xor-ed. */
  function UuidHash(u: Uuid): (h: bv32)
    ensures u.mostSigBits == u.leastSigBits ==> h == 0
    ensures h == UuidHashOfHalves(u.leastSigBits, u.mostSigBits)
  {
    assert u.mostSigBits ^ u.leastSigBits == u.leastSigBits ^ u.mostSigBits;
    assert u.mostSigBits == u.leastSigBits ==> u.mostSigBits ^ u.leastSigBits == 0;
    UuidHashOfHalves(u.mostSigBits, u.leastSigBits)
  }

  /** The hash of the halves in the order given; xor makes the order irrelevant. */
  function UuidHashOfHalves(a: bv64, b: bv64): bv32 {
    var hilo := a ^ b;
    (hilo >> 32) as bv32 ^ (hilo & 0xFFFF_FFFF) as bv32
  }

  /** The hash `Objects.hash` takes of an element: 0 for null. */
  function ElementHash(u: Option<Uuid>): bv32 {
    if u.Some? then UuidHash(u.value) else 0
  }

  datatype ChannelMemberId = ChannelMemberId(channelId: Option<Uuid>, userId: Option<Uuid>)

  /** What `equals` may be handed: null, a member id, or an object of another class. */
  datatype JavaObject = Null | MemberId(id: ChannelMemberId) | OtherClass

  /** A UUID is determined by its two halves. */
  lemma UuidsWithSameHalves(a: Uuid, b: Uuid)
    requires a.mostSigBits == b.mostSigBits && a.leastSigBits == b.leastSigBits
    ensures a == b
  {
    assert a == Uuid(b.mostSigBits, b.leastSigBits);
  }

  /** `Objects.equals` on two nullable UUIDs: both null, or equal halves. */
  function SameUuid(a: Option<Uuid>, b: Option<Uuid>): (same: bool)
    ensures same <==> a == b
  {
    if a.Some? && b.Some? && a.value.mostSigBits == b.value.mostSigBits && a.value.leastSigBits == b.value.leastSigBits then
      UuidsWithSameHalves(a.value, b.value);
      true
    else
      a.None? && b.None?
  }

  /**
   * `equals`: false for null and for other classes, otherwise both fields `Objects.equals`;
   * so two ids are equal exactly when they have the same channel and the same user.
   */
  function Equals(self: ChannelMemberId, o: JavaObject): (eq: bool)
    ensures eq ==> o.MemberId?
    ensures o.MemberId? ==> (eq <==> self.channelId == o.id.channelId && self.userId == o.id.userId)
  {
    match o
    case Null => false
    case OtherClass => false
    case MemberId(that) => SameUuid(self.channelId, that.channelId) && SameUuid(self.userId, that.userId)
  }

  /** `equals` is an equivalence on member ids, and false for null and for other classes. */
  lemma EqualsIsEquivalence(a: ChannelMemberId, b: ChannelMemberId, c: ChannelMemberId)
    ensures Equals(a, MemberId(a))
    ensures Equals(a, MemberId(b)) ==> Equals(b, MemberId(a))
    ensures Equals(a, MemberId(b)) && Equals(b, MemberId(c)) ==> Equals(a, MemberId(c))
    ensures !Equals(a, Null) && !Equals(a, OtherClass)
  {
  }

  /** One step of the `Arrays.hashCode` loop: `31 * result + h`, wrapping at 32 bits. */
  function HashStep(result: bv32, h: bv32): bv32 {
    31 * result + h
  }

  /** `Arrays.hashCode` of element hashes, which `Objects.hash` is: start at 1, then one step per element. */
  function ArraysHash(hs: seq<bv32>): bv32 {
    HashFrom(1, hs)
  }

  /** The `Arrays.hashCode` loop from an accumulated `result` over the remaining element hashes. */
  function HashFrom(result: bv32, hs: seq<bv32>): bv32
    decreases |hs|
  {
    if hs == [] then result else HashFrom(HashStep(result, hs[0]), hs[1..])
  }

  /** `Objects.hash(channelId, userId)`: `31 * (31 + h(channelId)) + h(userId)` in 32-bit arithmetic. */
  function HashCode(id: ChannelMemberId): (h: bv32)
    ensures h == ArraysHash([ElementHash(id.channelId), ElementHash(id.userId)])
  {
    var hs := [ElementHash(id.channelId), ElementHash(id.userId)];
    assert hs[1..] == [hs[1]] && hs[1..][1..] == [];
    assert ArraysHash(hs) == HashFrom(HashStep(1, hs[0]), [hs[1]]) == HashFrom(HashStep(HashStep(1, hs[0]), hs[1]), []);
    HashStep(HashStep(1, ElementHash(id.channelId)), ElementHash(id.userId))
  }

  /** Equal ids have equal hash codes, as hash-based collections require. */
  lemma EqualIdsHashAlike(a: ChannelMemberId, b: ChannelMemberId)
    requires Equals(a, MemberId(b))
    ensures HashCode(a) == HashCode(b)
  {
    assert a == b;
  }

  /** An id without a channel hashes to 31 * 31 plus its user's hash; with no user either, to 961. */
  lemma NullChannelHash(userId: Option<Uuid>)
    ensures HashCode(ChannelMemberId(None, userId)) == 961 + ElementHash(userId)
    ensures HashCode(ChannelMemberId(None, None)) == 961
  {
  }
}

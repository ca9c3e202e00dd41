/** Identifiers: machines and transactions packed into machine words, and lock names made of strings. */
module Ids {

  /* ---------- Machines ---------- */

  function MakeMachineId(region: bv8, replica: bv8, partition: bv16): bv32 {
    ((region as bv32) << 24) | ((replica as bv32) << 16) | (partition as bv32)
  }

  function RegionOf(id: bv32): bv8 {
    ((id >> 24) & 0xFF) as bv8
  }

  function ReplicaOf(id: bv32): bv8 {
    ((id >> 16) & 0xFF) as bv8
  }

  function PartitionOf(id: bv32): bv16 {
    (id & 0xFFFF) as bv16
  }

  /** Packing and unpacking undo each other, so machine ids and machines correspond one to one. */
  lemma {:induction false} MachineRoundTrip(region: bv8, replica: bv8, partition: bv16, id: bv32)
    ensures var packed := MakeMachineId(region, replica, partition);
            RegionOf(packed) == region && ReplicaOf(packed) == replica && PartitionOf(packed) == partition
    ensures MakeMachineId(RegionOf(id), ReplicaOf(id), PartitionOf(id)) == id
  {
  }

  /** The region is in the highest 8 bits, the replica in the next 8, the partition in the lowest 16. */
  lemma {:induction false} MachineIdLayout(region: bv8, replica: bv8, partition: bv16)
    ensures var id := MakeMachineId(region, replica, partition);
            id >> 24 == region as bv32 && (id << 8) >> 24 == replica as bv32 && (id << 16) >> 16 == partition as bv32
  {
  }

  /* ---------- Transactions and batches ---------- */

  /** Transaction and batch ids alike: the counter above the machine's 32 bits. */
  function MakeTxnId(machine: bv32, counter: bv64): bv64 {
    (counter << 32) | (machine as bv64)
  }

  function MachineIdOf(id: bv64): bv32 {
    (id & 0xFFFF_FFFF) as bv32
  }

  function CounterOf(id: bv64): bv64 {
    id >> 32
  }

  /** The machine is always recovered, the counter exactly as long as it fits into 32 bits. */
  lemma {:induction false} TxnIdRoundTrip(machine: bv32, counter: bv64)
    ensures MachineIdOf(MakeTxnId(machine, counter)) == machine
    ensures CounterOf(MakeTxnId(machine, counter)) == counter <==> counter <= 0xFFFF_FFFF
  {
  }

  /** Ids of different machines, or of one machine with different counters that fit, differ. */
  lemma {:induction false} TxnIdsDistinct(machine: bv32, counter: bv64, machine': bv32, counter': bv64)
    requires counter <= 0xFFFF_FFFF && counter' <= 0xFFFF_FFFF
    ensures MakeTxnId(machine, counter) == MakeTxnId(machine', counter') <==> machine == machine' && counter == counter'
  {
    TxnIdRoundTrip(machine, counter);
    TxnIdRoundTrip(machine', counter');
  }

  /** The counter is above the machine's 32 bits. */
  lemma {:induction false} TxnIdLayout(machine: bv32, counter: bv64)
    ensures (MakeTxnId(machine, counter) << 32) >> 32 == machine as bv64
    ensures counter <= 0xFFFF_FFFF ==> MakeTxnId(machine, counter) >> 32 == counter
  {
  }

  /** Beyond that, ids repeat: the counter wraps around. */
  lemma {:induction false} TxnIdsRepeat(machine: bv32, counter: bv64)
    ensures MakeTxnId(machine, counter) == MakeTxnId(machine, counter + 0x1_0000_0000)
  {
  }

  /* ---------- Lock names ---------- */

  predicate IsDigit(c: char) {
    '0' <= c <= '9'
  }

  function Digit(n: nat): char
    requires n < 10
  {
    ('0' as int + n) as char
  }

  function DigitValue(c: char): nat
    requires IsDigit(c)
  {
    c as int - '0' as int
  }

  /** A number in decimal notation. */
  function Decimal(n: nat): string {
    if n < 10 then [Digit(n)] else Decimal(n / 10) + [Digit(n % 10)]
  }

  predicate AllDigits(s: string) {
    forall i :: 0 <= i < |s| ==> IsDigit(s[i])
  }

  function ValueOf(s: string): nat
    requires AllDigits(s)
  {
    if s == [] then 0 else ValueOf(s[..|s| - 1]) * 10 + DigitValue(s[|s| - 1])
  }

  /** Reading the notation back gives the number; there are no leading zeros. */
  lemma {:induction false} DecimalRoundTrip(n: nat)
    ensures AllDigits(Decimal(n)) && ValueOf(Decimal(n)) == n
    ensures Decimal(n) != [] && (Decimal(n)[0] == '0' ==> Decimal(n) == "0")
  {
    if n < 10 {
      assert Decimal(n)[..0] == [];
    } else {
      DecimalRoundTrip(n / 10);
      var s := Decimal(n);
      assert s[..|s| - 1] == Decimal(n / 10);
    }
  }

  function MakeKeyRegion(key: string, master: nat): string {
    key + ":" + Decimal(master)
  }

  /** A string ends in a colon and digits in one way only. */
  lemma {:induction false} LastColon(a: string, x: string, b: string, y: string)
    requires AllDigits(x) && AllDigits(y) && a + ":" + x == b + ":" + y
    ensures a == b && x == y
  {
    var s, t := a + ":" + x, b + ":" + y;
    assert s[|a|] == ':' && t[|b|] == ':';
    assert forall i :: |a| < i < |s| ==> s[i] == x[i - |a| - 1];
    assert forall i :: |b| < i < |t| ==> t[i] == y[i - |b| - 1];
    assert |a| == |b|;
    assert s[..|a|] == a && t[..|b|] == b;
    assert s[|a| + 1..] == x && t[|b| + 1..] == y;
  }

  /** A lock name is the key, a colon and the master; distinct pairs never share one, also when keys hold colons. */
  lemma {:induction false} KeyRegionInjective(key: string, master: nat, key': string, master': nat)
    ensures var name := MakeKeyRegion(key, master);
            && key + ":" <= name && AllDigits(name[|key| + 1..]) && ValueOf(name[|key| + 1..]) == master
    ensures MakeKeyRegion(key, master) == MakeKeyRegion(key', master') <==> key == key' && master == master'
  {
    DecimalRoundTrip(master);
    DecimalRoundTrip(master');
    assert MakeKeyRegion(key, master)[|key| + 1..] == Decimal(master);
    if MakeKeyRegion(key, master) == MakeKeyRegion(key', master') {
      LastColon(key, Decimal(master), key', Decimal(master'));
    }
  }
}

/** The transaction ids a node hands out, in the machine words the program computes them in. */
module TransactionIds {
  const WORD16 := 0x1_0000
  const WORD32 := 0x1_0000_0000

  /** `transactionCounter << 16` keeps 32 bits; the node id is then added in 64 bits. */
  function Id(nodeId: nat, transactionCounter: nat): nat {
    transactionCounter * WORD16 % WORD32 + nodeId
  }

  /** The id given to the k-th client request (counting from 0) of the host with number `hostNum`. */
  function Nth(hostNum: nat, k: nat): nat {
    Id(hostNum % WORD16, k % WORD32)
  }

  class IdGenerator {
    const hostNum: nat
    const nodeId: nat
    var transactionCounter: nat
    ghost var served: nat

    ghost predicate Valid()
      reads this
    {
      nodeId == hostNum % WORD16 && transactionCounter == served % WORD32
    }

    constructor (hostNum: nat)
      ensures Valid() && this.hostNum == hostNum && served == 0
    {
      this.hostNum := hostNum;
      nodeId := hostNum % WORD16;
      transactionCounter := 0;
      served := 0;
    }

    method GetUniqueTransactionId() returns (newID: nat)
      requires Valid()
      modifies this
      ensures Valid() && served == old(served) + 1
      ensures newID == Nth(hostNum, old(served))
      ensures newID == old(served) % 0x1_0000 * 0x1_0000 + hostNum % 0x1_0000
    {
      NthIs(hostNum, served);
      newID := transactionCounter * WORD16 % WORD32;
      newID := newID + nodeId;
      transactionCounter := (transactionCounter + 1) % WORD32;
      served := served + 1;
    }
  }

  /** Only the low half of the counter survives the shift. */
  lemma Shifted(c: nat)
    ensures c * WORD16 % WORD32 == c % WORD16 * WORD16
  {
    assert c * WORD16 == c / WORD16 * WORD32 + c % WORD16 * WORD16;
  }

  /** The low half of the counter is the same before and after it wraps around. */
  lemma LowHalf(k: nat)
    ensures k % WORD32 % WORD16 == k % WORD16
  {
    var r := k % WORD32;
    assert k == (k / WORD32 * WORD16 + r / WORD16) * WORD16 + r % WORD16;
  }

  lemma NthIs(hostNum: nat, k: nat)
    ensures Nth(hostNum, k) == k % 0x1_0000 * 0x1_0000 + hostNum % 0x1_0000
    ensures Nth(hostNum, k) < 0x1_0000_0000
  {
    LowHalf(k);
    Shifted(k % WORD32);
  }

  /** Two ids are equal exactly when the 16-bit node ids agree and the requests are a multiple of 2^16
      apart. */
  lemma SameIdIff(hostNum1: nat, k1: nat, hostNum2: nat, k2: nat)
    ensures Nth(hostNum1, k1) == Nth(hostNum2, k2) <==>
      hostNum1 % 0x1_0000 == hostNum2 % 0x1_0000 && k1 % 0x1_0000 == k2 % 0x1_0000
  {
    NthIs(hostNum1, k1);
    NthIs(hostNum2, k2);
  }

  /** Only counters a multiple of 2^16 apart agree in the low half. */
  lemma LowHalves(i: nat, j: nat)
    requires i < j
    ensures i % WORD16 == j % WORD16 ==> i + WORD16 <= j
    ensures j == i + WORD16 ==> i % WORD16 == j % WORD16
  {
  }

  /** So the ids of n consecutive requests of one node are pairwise distinct exactly when n <= 2^16. */
  lemma WindowDistinctIff(hostNum: nat, first: nat, n: nat)
    ensures (forall i, j :: first <= i < j < first + n ==> Nth(hostNum, i) != Nth(hostNum, j)) <==> n <= 0x1_0000
  {
    hide Nth;
    if n <= WORD16 {
      forall i, j | first <= i < j < first + n ensures Nth(hostNum, i) != Nth(hostNum, j) {
        SameIdIff(hostNum, i, hostNum, j);
        LowHalves(i, j);
      }
    } else {
      SameIdIff(hostNum, first, hostNum, first + WORD16);
      LowHalves(first, first + WORD16);
    }
  }

  /** The layout the source's comment describes: bits 47-16 hold the counter, bits 15-0 the node id. */
  function Documented(hostNum: nat, k: nat): nat {
    k % WORD32 * WORD16 + hostNum % WORD16
  }

  /** The ids have it exactly while the counter fits in 16 bits. */
  lemma AsDocumentedIff(hostNum: nat, k: nat)
    ensures Nth(hostNum, k) == Documented(hostNum, k) <==> k % 0x1_0000_0000 < 0x1_0000
  {
    Shifted(k % WORD32);
  }
}

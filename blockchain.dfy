/**
 * The ledger core: transactions whose digest covers their own fields,
 * blocks whose digest covers their rendered transaction list and metadata,
 * and the proof-of-work search over a block's nonce.
 *
 * The digest primitive `hash_string` is a collaborator whose algorithm is
 * not part of this model; it enters as a parameter `h` of type `Hasher`, so
 * nothing here depends on how it hashes, only on its being a function.
 * The clock read at construction becomes an explicit `timestamp` argument.
 */
module Blockchain {
  import opened Decimal
  import opened Render

  /** A deterministic text-to-text digest, the role `hash_string` plays. */
  type Hasher = string -> string

  /** What a transaction digests: sender, recipient, decimal amount, timestamp, no separators. */
  function TxDigestInput(fromAddress: string, toAddress: string, ammount: nat, timestamp: string): string
  {
    fromAddress + toAddress + NatToString(ammount) + timestamp
  }

  /** What a block digests: list text, timestamp, decimal nonce, decimal amount, previous digest. */
  function BlockDigestInput(listText: string, timestamp: string, nonce: nat, ammount: nat, previousHash: string): string
  {
    listText + timestamp + NatToString(nonce) + NatToString(ammount) + previousHash
  }

  /**
   * Mining never feeds the digest the same text twice: two block digest
   * inputs that agree on every other field differ whenever the nonces do.
   */
  lemma DigestInputSeparatesNonces(listText: string, timestamp: string, n1: nat, n2: nat, ammount: nat, previousHash: string)
    ensures (BlockDigestInput(listText, timestamp, n1, ammount, previousHash)
             == BlockDigestInput(listText, timestamp, n2, ammount, previousHash)) <==> n1 == n2
  {
    var head := listText + timestamp;
    var tail := NatToString(ammount) + previousHash;
    var a, b := NatToString(n1), NatToString(n2);
    assert BlockDigestInput(listText, timestamp, n1, ammount, previousHash) == head + a + tail;
    assert BlockDigestInput(listText, timestamp, n2, ammount, previousHash) == head + b + tail;
    if head + a + tail == head + b + tail {
      assert |a| == |b|;
      assert a == (head + a + tail)[|head|..|head| + |a|];
      assert b == (head + b + tail)[|head|..|head| + |b|];
      NatToStringInjective(n1, n2);
    }
  }

  /** The mining goal: the digest has at least `d` characters and the first `d` are all '0'. */
  predicate HasZeroPrefix(hash: string, d: nat)
  {
    |hash| >= d && forall i :: 0 <= i < d ==> hash[i] == '0'
  }

  /** The digest `h` gives `input` meets difficulty `d`. */
  predicate Meets(h: Hasher, input: string, d: nat)
  {
    HasZeroPrefix(h(input), d)
  }

  /** At most the first `n` characters of `s`, as `chars().take(n).collect()`. */
  function Take(s: string, n: nat): string
  {
    if |s| <= n then s else s[..n]
  }

  /** `n` copies of '0', the comparison string built from `vec![b'0'; n]`. */
  function Zeros(n: nat): string
  {
    seq(n, _ => '0')
  }

  /** The loop test of `mine_block` (compare the taken prefix with the zeros) is exactly the mining goal. */
  lemma PrefixTestIsGoal(hash: string, d: nat)
    ensures Take(hash, d) == Zeros(d) <==> HasZeroPrefix(hash, d)
  {
  }

  /** `s` ends with `suffix`. */
  predicate EndsWith(s: string, suffix: string)
  {
    |suffix| <= |s| && s[|s| - |suffix|..] == suffix
  }

  /**
   * A transaction record. Nothing writes a transaction after it is built
   * (the block that holds it owns it exclusively), so it is a value.
   */
  datatype Transaction = Transaction(
    fromAddress: string,
    toAddress: string,
    ammount: nat,
    timestamp: string,
    hash: string)
  {
    /** The digest matches the other fields. */
    predicate HashIsCurrent(h: Hasher)
    {
      hash == h(TxDigestInput(fromAddress, toAddress, ammount, timestamp))
    }

    /**
     * The printable form: labelled fields in the order sender, recipient,
     * amount, timestamp, digest, inside square brackets.
     */
    function Print(): (r: string)
      ensures |r| >= 2 && r[0] == '[' && r[|r| - 1] == ']'
    {
      var fields := ", To: " + toAddress + ", Ammount: " + NatToString(ammount) + ", Timestamp: " + timestamp;
      "[From: " + fromAddress + fields + (", Hash: " + hash + "]")
    }
  }

  /**
   * `Transaction::calc_hash`: builds the digest input by appending the
   * fields one by one, then replaces the digest and nothing else. Running it
   * on a transaction whose digest is already current changes nothing.
   */
  method CalcTransactionHash(t: Transaction, h: Hasher) returns (r: Transaction)
    ensures r.HashIsCurrent(h)
    ensures r.fromAddress == t.fromAddress && r.toAddress == t.toAddress
    ensures r.ammount == t.ammount && r.timestamp == t.timestamp
    ensures t.HashIsCurrent(h) ==> r == t
  {
    var s := "";
    s := s + t.fromAddress;
    s := s + t.toAddress;
    s := s + NatToString(t.ammount);
    s := s + t.timestamp;
    assert s == TxDigestInput(t.fromAddress, t.toAddress, t.ammount, t.timestamp);
    r := t.(hash := h(s));
  }

  /**
   * `Transaction::new`: the record with an empty digest, then digested.
   * The digest covers sender, recipient, decimal amount and timestamp,
   * concatenated in that order with no separators.
   */
  method NewTransaction(fromAddress: string, toAddress: string, ammount: nat, timestamp: string, h: Hasher)
    returns (t: Transaction)
    ensures t.fromAddress == fromAddress && t.toAddress == toAddress
    ensures t.ammount == ammount && t.timestamp == timestamp
    ensures t.hash == h(fromAddress + toAddress + NatToString(ammount) + timestamp)
  {
    t := Transaction(fromAddress, toAddress, ammount, timestamp, "");
    t := CalcTransactionHash(t, h);
  }

  /**
   * A transaction's printable form opens with its sender and closes with
   * its own digest, so the block digest, which covers these forms, covers
   * every transaction digest.
   */
  lemma TransactionPrintShape(t: Transaction)
    ensures "[From: " + t.fromAddress <= t.Print()
    ensures EndsWith(t.Print(), ", Hash: " + t.hash + "]")
  {
  }

  /** The printable form of each transaction, in list order. */
  function TxPrints(txs: seq<Transaction>): (r: seq<string>)
    ensures |r| == |txs|
  {
    if txs == [] then [] else TxPrints(txs[..|txs| - 1]) + [txs[|txs| - 1].Print()]
  }

  /** Entry `k` of the rendered forms is the form of transaction `k`: order is kept. */
  lemma {:induction false} TxPrintsAt(txs: seq<Transaction>, k: nat)
    requires k < |txs|
    ensures TxPrints(txs)[k] == txs[k].Print()
  {
    if k < |txs| - 1 {
      TxPrintsAt(txs[..|txs| - 1], k);
    }
  }

  /**
   * A block. Its digest function is fixed when it is built, as the one
   * `hash_string` is for the whole program.
   */
  class Block {
    const h: Hasher
    const timestamp: string
    const ammount: nat
    var nonce: nat
    var hash: string
    const previousHash: string
    const transactions: seq<Transaction>

    /** The rendered transaction list, as `get_transactions` returns it. */
    function TransactionsText(): string
    {
      RenderList(TxPrints(transactions))
    }

    /** The text `calc_hash` digests when the nonce is `n`. */
    function DigestInputAt(n: nat): string
    {
      BlockDigestInput(TransactionsText(), timestamp, n, ammount, previousHash)
    }

    /** The digest matches the current fields. */
    predicate HashIsCurrent()
      reads this
    {
      hash == h(DigestInputAt(nonce))
    }

    /** No nonce in `lo..hi` (exclusive) gives a digest that meets difficulty `d`. */
    predicate NoneMined(d: nat, lo: nat, hi: nat)
      decreases hi
    {
      hi <= lo || (!Meets(h, DigestInputAt(hi - 1), d) && NoneMined(d, lo, hi - 1))
    }

    lemma {:induction false} NoneMinedAt(d: nat, lo: nat, hi: nat, n: nat)
      requires NoneMined(d, lo, hi) && lo <= n < hi
      ensures !HasZeroPrefix(h(DigestInputAt(n)), d)
      decreases hi
    {
      if n < hi - 1 {
        NoneMinedAt(d, lo, hi - 1, n);
      }
    }

    constructor (transactions: seq<Transaction>, ammount: nat, timestamp: string, h: Hasher)
      ensures this.h == h
      ensures this.transactions == transactions && this.ammount == ammount && this.timestamp == timestamp
      ensures nonce == 0 && previousHash == ""
      ensures hash == h(BlockDigestInput(RenderList(TxPrints(transactions)), timestamp, 0, ammount, ""))
      ensures HashIsCurrent()
    {
      this.h := h;
      this.timestamp := timestamp;
      this.ammount := ammount;
      previousHash := "";
      this.transactions := transactions;
      nonce := 0;
      hash := "";
      new;
      CalcHash();
    }

    /**
     * Renders the transaction list by appending each printable form to a
     * buffer, writing ", " before every one except the first.
     */
    method GetTransactions() returns (s: string)
      ensures s == TransactionsText()
    {
      s := "[";
      var i := 0;
      while i < |transactions|
        invariant 0 <= i <= |transactions|
        invariant s == "[" + Join(TxPrints(transactions[..i]))
        invariant i > 0 <==> |s| > 1
      {
        var t := transactions[i].Print();
        ghost var before := TxPrints(transactions[..i]);
        ghost var after := TxPrints(transactions[..i + 1]);
        assert transactions[..i + 1][..i] == transactions[..i];
        assert after == before + [t];
        assert after[..i] == before;
        if |s| > 1 {
          s := s + ", ";
        }
        s := s + t;
        assert |t| > 0 by { TransactionPrintShape(transactions[i]); }
        assert Join(after) == if i == 0 then t else Join(before) + ", " + t;
        i := i + 1;
      }
      assert transactions[..i] == transactions;
      s := s + "]";
    }

    /** Recomputes the digest; a second call with nothing changed leaves it as it was. */
    method CalcHash()
      modifies this`hash
      ensures HashIsCurrent()
      ensures old(HashIsCurrent()) ==> hash == old(hash)
    {
      var s := "";
      var list := GetTransactions();
      s := s + list;
      s := s + timestamp;
      s := s + NatToString(nonce);
      s := s + NatToString(ammount);
      s := s + previousHash;
      assert s == DigestInputAt(nonce);
      hash := h(s);
    }

    /**
     * The proof-of-work search: while the first `difficulty` characters of
     * the digest are not all '0', advance the nonce and recompute the digest.
     * The search gives up after `fuel` advances and reports whether it
     * reached the goal; nothing but the nonce and the digest changes.
     */
    method MineBlock(difficulty: nat, fuel: nat) returns (mined: bool)
      modifies this`nonce, this`hash
      ensures mined <==> HasZeroPrefix(hash, difficulty)
      ensures old(nonce) <= nonce <= old(nonce) + fuel
      ensures !mined ==> nonce == old(nonce) + fuel
      ensures old(HasZeroPrefix(hash, difficulty)) ==> nonce == old(nonce) && hash == old(hash)
      ensures nonce == old(nonce) ==> hash == old(hash)
      ensures nonce != old(nonce) ==> HashIsCurrent() && !old(HasZeroPrefix(hash, difficulty))
      ensures old(HashIsCurrent()) ==> HashIsCurrent()
      ensures NoneMined(difficulty, old(nonce) + 1, nonce)
    {
      var hashCompare := Zeros(difficulty);
      var hashStart := Take(hash, difficulty);
      var steps := 0;
      while hashStart != hashCompare && steps < fuel
        invariant 0 <= steps <= fuel
        invariant nonce == old(nonce) + steps
        invariant hashStart == Take(hash, difficulty)
        invariant steps == 0 ==> hash == old(hash)
        invariant steps > 0 ==> HashIsCurrent() && !old(HasZeroPrefix(hash, difficulty))
        invariant NoneMined(difficulty, old(nonce) + 1, nonce)
      {
        PrefixTestIsGoal(hash, difficulty);
        assert steps > 0 ==> !Meets(h, DigestInputAt(nonce), difficulty);
        nonce := nonce + 1;
        CalcHash();
        hashStart := Take(hash, difficulty);
        steps := steps + 1;
      }
      PrefixTestIsGoal(hash, difficulty);
      mined := hashStart == hashCompare;
    }

    /** The printable form: list text, timestamp, nonce, digest, previous digest, labelled and bracketed. */
    function Print(): (r: string)
      reads this
      ensures "[Transactions: " + TransactionsText() <= r
      ensures EndsWith(r, ", Hash: " + hash + ", PreviousHash: " + previousHash + "]")
    {
      var fields := ", Timestamp: " + timestamp + ", Nonce: " + NatToString(nonce);
      "[Transactions: " + TransactionsText() + fields + (", Hash: " + hash + ", PreviousHash: " + previousHash + "]")
    }
  }
}

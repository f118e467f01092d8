/**
 * The three identifier derivations of the token library: the token key,
 * the collection key and the per-log event key. Each is a string template
 * followed by `toLowerCase`.
 */
module Keys {
  import opened Strings

  /**
   * Token key: chain id and address joined with NO separator, then
   * `:` and the token id, all lower-cased.
   */
  function TokenKey(chainId: nat, address: string, tokenId: string): (k: string)
    ensures IsLowerCase(k)
    ensures Lower(k) == k
    ensures k == NatToString(chainId) + Lower(address) + ":" + Lower(tokenId)
  {
    var raw := NatToString(chainId) + address + ":" + tokenId;
    TokenKeyShape(chainId, address, tokenId);
    LowerOfLowerCase(Lower(raw));
    Lower(raw)
  }

  lemma TokenKeyShape(chainId: nat, address: string, tokenId: string)
    ensures Lower(NatToString(chainId) + address + ":" + tokenId)
         == NatToString(chainId) + Lower(address) + ":" + Lower(tokenId)
  {
    LowerJoin(NatToString(chainId) + address, tokenId);
    LowerAppend(NatToString(chainId), address);
    LowerOfNatToString(chainId);
  }

  /** Collection key: `chainId:address`, lower-cased. */
  function CollectionKey(chainId: nat, address: string): (k: string)
    ensures IsLowerCase(k)
    ensures Lower(k) == k
    ensures k == NatToString(chainId) + ":" + Lower(address)
  {
    var raw := NatToString(chainId) + ":" + address;
    CollectionKeyShape(chainId, address);
    LowerOfLowerCase(Lower(raw));
    Lower(raw)
  }

  lemma CollectionKeyShape(chainId: nat, address: string)
    ensures Lower(NatToString(chainId) + ":" + address) == NatToString(chainId) + ":" + Lower(address)
  {
    LowerJoin(NatToString(chainId), address);
    LowerOfNatToString(chainId);
  }

  /**
   * Event key: `chainId:address:txHash:localIndex`, lower-cased. It starts
   * with the collection key of the emitting contract.
   */
  function EventKey(chainId: nat, address: string, txHash: string, localIndex: nat): (k: string)
    ensures IsLowerCase(k)
    ensures Lower(k) == k
    ensures k == CollectionKey(chainId, address) + ":" + Lower(txHash) + ":" + NatToString(localIndex)
  {
    var raw := NatToString(chainId) + ":" + address + ":" + txHash + ":" + NatToString(localIndex);
    EventKeyShape(chainId, address, txHash, localIndex);
    LowerOfLowerCase(Lower(raw));
    Lower(raw)
  }

  lemma EventKeyShape(chainId: nat, address: string, txHash: string, localIndex: nat)
    ensures Lower(NatToString(chainId) + ":" + address + ":" + txHash + ":" + NatToString(localIndex))
         == CollectionKey(chainId, address) + ":" + Lower(txHash) + ":" + NatToString(localIndex)
  {
    var head := NatToString(chainId) + ":" + address;
    LowerJoin(head + ":" + txHash, NatToString(localIndex));
    LowerJoin(head, txHash);
    LowerOfNatToString(localIndex);
    CollectionKeyShape(chainId, address);
  }

  /** Token keys ignore the case of the address and the token id. */
  lemma TokenKeyCaseInsensitive(chainId: nat, address: string, tokenId: string)
    ensures TokenKey(chainId, address, tokenId) == TokenKey(chainId, Lower(address), Lower(tokenId))
  {
    LowerIdempotent(address);
    LowerIdempotent(tokenId);
  }

  /** For a fixed chain and contract, the token key determines the token id up to case. */
  lemma TokenKeyDeterminesTokenId(chainId: nat, address: string, t1: string, t2: string)
    requires TokenKey(chainId, address, t1) == TokenKey(chainId, address, t2)
    ensures Lower(t1) == Lower(t2)
  {
    var prefix := NatToString(chainId) + Lower(address) + ":";
    assert TokenKey(chainId, address, t1) == prefix + Lower(t1);
    assert TokenKey(chainId, address, t2) == prefix + Lower(t2);
    assert Lower(t1) == TokenKey(chainId, address, t1)[|prefix|..];
    assert Lower(t2) == TokenKey(chainId, address, t2)[|prefix|..];
  }

  /**
   * Because chain id and address are joined without a separator, two
   * different (chain, contract) pairs can share a token key, although
   * their collection keys differ. The colliding contract `1x` is not a
   * `0x`-prefixed address; for those the join is unambiguous
   * (TokenKeyHexAddressFixesChain).
   */
  lemma TokenKeyJoinIsAmbiguous()
    ensures TokenKey(1, "1x", "5") == TokenKey(11, "x", "5")
    ensures CollectionKey(1, "1x") != CollectionKey(11, "x")
  {
    assert NatToString(1) == "1";
    assert NatToString(11) == NatToString(1) + "1";
    assert Lower("1x") == "1x" && Lower("x") == "x" && Lower("5") == "5";
    assert CollectionKey(1, "1x")[1] == ':';
    assert CollectionKey(11, "x")[1] == '1';
  }

  /** An address written `0x…` or `0X…`. */
  predicate IsHexPrefixed(address: string) {
    |address| >= 2 && address[0] == '0' && (address[1] == 'x' || address[1] == 'X')
  }

  /**
   * With `0x`-prefixed addresses the first `x` of a token key marks where
   * the decimal chain id ends, so equal token keys mean equal chain ids.
   */
  lemma TokenKeyHexAddressFixesChain(c1: nat, a1: string, t1: string, c2: nat, a2: string, t2: string)
    requires IsHexPrefixed(a1) && IsHexPrefixed(a2)
    requires TokenKey(c1, a1, t1) == TokenKey(c2, a2, t2)
    ensures c1 == c2
  {
    var k := TokenKey(c1, a1, t1);
    var n1, n2 := NatToString(c1), NatToString(c2);
    XAfterChainId(c1, a1, t1);
    XAfterChainId(c2, a2, t2);
    // Each key has its first `x` right after the chain id and the `0`.
    assert |n1| == |n2|;
    assert n1 == k[..|n1|] == n2;
    NatToStringInjective(c1, c2);
  }

  /** In a token key with a `0x` address, the chain id's digits and the `0` precede the first `x`. */
  lemma XAfterChainId(c: nat, a: string, t: string)
    requires IsHexPrefixed(a)
    ensures var k := TokenKey(c, a, t); var n := NatToString(c);
      && |k| > |n| + 1
      && k[..|n|] == n
      && (forall i :: 0 <= i <= |n| ==> k[i] != 'x')
      && k[|n| + 1] == 'x'
  {
    var k := TokenKey(c, a, t);
    var n := NatToString(c);
    assert k == n + Lower(a) + ":" + Lower(t);
    assert k[|n|] == Lower(a)[0] == '0';
    assert k[|n| + 1] == Lower(a)[1] == 'x';
    assert forall i :: 0 <= i < |n| ==> k[i] == n[i] && IsDigit(n[i]);
  }

  /** The token and collection keys of token 5 of contract `0xABC` on chain 1. */
  lemma TokenKeyExample()
    ensures TokenKey(1, "0xABC", "5") == "10xabc:5"
    ensures CollectionKey(1, "0xABC") == "1:0xabc"
  {
    assert NatToString(1) == "1";
    assert Lower("0xABC") == "0xabc";
    assert Lower("5") == "5";
  }

  /** The event key of log 2 of transaction `0xT1` from contract `0xAbc` on chain 1. */
  lemma EventKeyExample()
    ensures EventKey(1, "0xAbc", "0xT1", 2) == "1:0xabc:0xt1:2"
    ensures CollectionKey(1, "0xAbc") == "1:0xabc"
  {
    assert "1:0xabc" + ":" + "0xt1" + ":" + "2" == "1:0xabc:0xt1:2";
    assert Lower("0xT1") == "0xt1";
    assert CollectionKey(1, "0xAbc") == "1:0xabc" by {
      assert NatToString(1) == "1";
      assert Lower("0xAbc") == "0xabc";
    }
    assert NatToString(2) == "2";
  }
}

/**
 * The token library: resolving a Token record (fetch it, or create or
 * complete it), the direct Token upsert, the Token lookup, and the
 * Transfer and TokensMinted upserts built from an event.
 */
module Tokens {
  import opened Wrappers
  import opened Strings
  import opened Types
  import opened Keys
  import opened Storage

  /** A field that is present and truthy, as `record.field && …` tests it. */
  predicate IsSet(r: Record, f: Field) {
    f in r && r[f].Truthy()
  }

  /** A Token is complete once `standard`, `collectionId` and `tokenId` are all set. */
  predicate HasRequiredFields(token: Record) {
    IsSet(token, Standard) && IsSet(token, CollectionId) && IsSet(token, TokenId)
  }

  /** The storage key of a Token. */
  function TokenEntityKey(chainId: nat, address: string, tokenId: string): (k: Key)
    ensures k.kind == Token && IsLowerCase(k.id)
  {
    Key(Token, TokenKey(chainId, address, tokenId))
  }

  /** The arguments getOrCreateToken rejects: a zero chain id or an empty address. */
  predicate ValidIdentity(chainId: nat, address: string) {
    chainId != 0 && address != ""
  }

  /**
   * The getOrCreateToken payload: the identity fields, then the caller's
   * `extra` spread over them, so that `extra` wins on every field it sets.
   */
  function TokenPayload(chainId: nat, address: string, tokenId: string, extra: Option<Record>): (p: Record)
    ensures p.Keys == {CollectionId, ChainId, Address, TokenId} + OrEmpty(extra).Keys
    ensures forall f :: f in OrEmpty(extra) ==> p[f] == OrEmpty(extra)[f]
    ensures CollectionId !in OrEmpty(extra) ==> p[CollectionId] == Str(CollectionKey(chainId, address))
    ensures ChainId !in OrEmpty(extra) ==> p[ChainId] == Num(chainId)
    ensures Address !in OrEmpty(extra) ==> p[Address] == Str(address)
    ensures TokenId !in OrEmpty(extra) ==> p[TokenId] == Str(tokenId)
  {
    map[
      CollectionId := Str(CollectionKey(chainId, address)),
      ChainId := Num(chainId),
      Address := Str(address),
      TokenId := Str(tokenId)
    ] + OrEmpty(extra)
  }

  /**
   * What one getOrCreateToken call returns, the store after it, whether it
   * looked the token up and whether it wrote.
   */
  datatype Resolution = Resolution(result: Result<Record>, store: Store, read: bool, wrote: bool)

  /** Whether the lookup getOrCreateToken makes (only when `cache` is on) lets it return without a write. */
  predicate ReturnsStored(s: Store, k: Key, cache: bool, extra: Option<Record>) {
    cache && k in s && (HasRequiredFields(s[k]) || extra.None?)
  }

  /**
   * getOrCreateToken as a function of the store before the call. The
   * in-flight deduplication around the body is a single run here.
   */
  function ResolveToken(s: Store, chainId: nat, address: string, tokenId: string, cache: bool, extra: Option<Record>)
    : (res: Resolution)
    // Rejected exactly when the chain id or the address is missing, and then nothing is read or written.
    ensures res.result.Err? <==> !ValidIdentity(chainId, address)
    ensures res.result.Err? ==> res.store == s && !res.read && !res.wrote
    // The stored token is looked up exactly when the call is valid and the cache is on.
    ensures res.read <==> ValidIdentity(chainId, address) && cache
    // A complete stored record, or any stored record when there is no `extra`, comes back untouched.
    ensures ValidIdentity(chainId, address) && ReturnsStored(s, TokenEntityKey(chainId, address, tokenId), cache, extra)
      ==> res == Resolution(Ok(s[TokenEntityKey(chainId, address, tokenId)]), s, true, false)
    // Otherwise exactly one merge at the token key, and the merged record is returned.
    ensures ValidIdentity(chainId, address) && !ReturnsStored(s, TokenEntityKey(chainId, address, tokenId), cache, extra)
      ==> && res.wrote
          && res.store == Write(s, TokenEntityKey(chainId, address, tokenId), TokenPayload(chainId, address, tokenId, extra))
          && res.result == Ok(res.store[TokenEntityKey(chainId, address, tokenId)])
  {
    if !ValidIdentity(chainId, address) then
      Resolution(Err(MissingFields), s, false, false)
    else
      var k := TokenEntityKey(chainId, address, tokenId);
      var token := if cache then Lookup(s, k) else None;
      if token.Some? && HasRequiredFields(token.value) then
        Resolution(Ok(token.value), s, true, false)
      else if token.Some? && extra.None? then
        Resolution(Ok(token.value), s, true, false)
      else
        var s' := Write(s, k, TokenPayload(chainId, address, tokenId, extra));
        Resolution(Ok(s'[k]), s', cache, true)
  }

  /** `getToken`: the Token stored under the token key, if any. */
  method GetToken(db: Database, chainId: nat, address: string, tokenId: string, cache: bool)
    returns (r: Option<Record>)
    modifies db
    ensures r == Lookup(db.store, TokenEntityKey(chainId, address, tokenId))
    ensures db.store == old(db.store) && db.writes == old(db.writes)
    ensures db.lookups == old(db.lookups) + [TokenEntityKey(chainId, address, tokenId)]
  {
    var entityId := TokenKey(chainId, address, tokenId);
    r := db.Get(Token, entityId);
  }

  /** `getOrCreateToken`. */
  method GetOrCreateToken(db: Database, chainId: nat, address: string, tokenId: string, cache: bool, extra: Option<Record>)
    returns (r: Result<Record>)
    modifies db
    ensures var res := ResolveToken(old(db.store), chainId, address, tokenId, cache, extra);
      && r == res.result
      && db.store == res.store
      && db.writes == old(db.writes) + (if res.wrote then [TokenEntityKey(chainId, address, tokenId)] else [])
      && db.lookups == old(db.lookups) + (if res.read then [TokenEntityKey(chainId, address, tokenId)] else [])
  {
    if chainId == 0 || address == "" {
      return Err(MissingFields);
    }
    var entityId := TokenKey(chainId, address, tokenId);
    var token: Option<Record> := None;
    if cache {
      token := GetToken(db, chainId, address, tokenId, cache);
    }
    if token.Some? && HasRequiredFields(token.value) {
      return Ok(token.value);
    }
    if token.Some? && extra.None? {
      return Ok(token.value);
    }
    var written := db.Upsert(Token, entityId, TokenPayload(chainId, address, tokenId, extra));
    return Ok(written);
  }

  /** The fields upsertToken demands: `chainId`, `collectionId` and `tokenId`, each set. */
  predicate HasUpsertFields(token: Record) {
    IsSet(token, ChainId) && IsSet(token, CollectionId) && IsSet(token, TokenId)
  }

  /** `upsertToken`: a direct merge at the caller's `entityId`, which is used as given. */
  method UpsertToken(db: Database, entityId: string, token: Record) returns (r: Result<Record>)
    modifies db
    ensures r.Err? <==> !HasUpsertFields(token)
    ensures r.Err? ==> db.store == old(db.store) && db.writes == old(db.writes)
    ensures db.lookups == old(db.lookups)
    ensures r.Ok? ==>
      && db.store == Write(old(db.store), Key(Token, entityId), token)
      && r.value == db.store[Key(Token, entityId)]
      && db.writes == old(db.writes) + [Key(Token, entityId)]
  {
    if !IsSet(token, ChainId) || !IsSet(token, CollectionId) || !IsSet(token, TokenId) {
      return Err(MissingFields);
    }
    var written := db.Upsert(Token, entityId, token);
    return Ok(written);
  }

  /** The storage key of the Transfer or TokensMinted entity an event produces. */
  function EventEntityKey(kind: EntityType, e: Event): (k: Key)
    ensures k.kind == kind && IsLowerCase(k.id)
  {
    Key(kind, EventKey(e.chainId, e.logAddress, e.txHash, e.localIndex))
  }

  /**
   * The Transfer an event produces: the envelope fields copied (the
   * transaction hash in its original case, although the key lower-cases
   * it), `from` and `to` lower-cased, `amount` as an exact integer.
   */
  function TransferOf(e: Event, tokenId: string, from: string, to: string, amount: int): (t: TransferEntity)
    ensures t.horizon == e.horizon && t.chainId == e.chainId && t.blockTimestamp == e.blockTimestamp
    ensures t.txHash == e.txHash
    ensures t.collectionId == CollectionKey(e.chainId, e.logAddress)
    ensures IsLowerCase(t.from) && Lower(from) == t.from
    ensures IsLowerCase(t.to) && Lower(to) == t.to
    ensures t.amount == amount && t.tokenId == tokenId
  {
    LowerIdempotent(from);
    LowerIdempotent(to);
    TransferEntity(
      horizon := e.horizon,
      chainId := e.chainId,
      blockTimestamp := e.blockTimestamp,
      txHash := e.txHash,
      collectionId := CollectionKey(e.chainId, e.logAddress),
      tokenId := tokenId,
      from := Lower(from),
      to := Lower(to),
      amount := amount)
  }

  /** A Transfer read back from its stored fields. */
  function ParseTransfer(r: Record): Option<TransferEntity> {
    if && Horizon in r && r[Horizon].Mark?
       && ChainId in r && r[ChainId].Num? && r[ChainId].n >= 0
       && BlockTimestamp in r && r[BlockTimestamp].Num?
       && TxHash in r && r[TxHash].Str?
       && CollectionId in r && r[CollectionId].Str?
       && TokenId in r && r[TokenId].Str?
       && From in r && r[From].Str?
       && To in r && r[To].Str?
       && Amount in r && r[Amount].Big?
    then
      Some(TransferEntity(r[Horizon].h, r[ChainId].n, r[BlockTimestamp].n, r[TxHash].s,
        r[CollectionId].s, r[TokenId].s, r[From].s, r[To].s, r[Amount].b))
    else
      None
  }

  /** The fields upsertTransfer writes for a Transfer; they read back as that Transfer. */
  function TransferFields(t: TransferEntity): (r: Record)
    ensures r.Keys == {Horizon, ChainId, BlockTimestamp, TxHash, CollectionId, TokenId, From, To, Amount}
    ensures ParseTransfer(r) == Some(t)
  {
    map[
      Horizon := Mark(t.horizon),
      ChainId := Num(t.chainId),
      BlockTimestamp := Num(t.blockTimestamp),
      TxHash := Str(t.txHash),
      CollectionId := Str(t.collectionId),
      TokenId := Str(t.tokenId),
      From := Str(t.from),
      To := Str(t.to),
      Amount := Big(t.amount)
    ]
  }

  /** `upsertTransfer`: one merge at the event key under the Transfer kind. */
  method UpsertTransfer(db: Database, e: Event, tokenId: string, from: string, to: string, amount: int)
    returns (r: Record)
    modifies db
    ensures db.store == Write(old(db.store), EventEntityKey(Transfer, e), TransferFields(TransferOf(e, tokenId, from, to, amount)))
    ensures r == db.store[EventEntityKey(Transfer, e)]
    ensures ParseTransfer(r) == Some(TransferOf(e, tokenId, from, to, amount))
    ensures forall k: Key :: k.kind != Transfer ==> Lookup(db.store, k) == Lookup(old(db.store), k)
    ensures db.writes == old(db.writes) + [EventEntityKey(Transfer, e)]
    ensures db.lookups == old(db.lookups)
  {
    var entityId := EventKey(e.chainId, e.logAddress, e.txHash, e.localIndex);
    r := db.Upsert(Transfer, entityId, TransferFields(TransferOf(e, tokenId, from, to, amount)));
    WriteKeepsOtherKinds(old(db.store), Key(Transfer, entityId), TransferFields(TransferOf(e, tokenId, from, to, amount)));
    TransferFieldsOverwrite(Lookup(old(db.store), Key(Transfer, entityId)), TransferOf(e, tokenId, from, to, amount));
  }

  /** Whatever was stored before, merging a Transfer's fields leaves a record that reads back as that Transfer. */
  lemma TransferFieldsOverwrite(existing: Option<Record>, t: TransferEntity)
    ensures ParseTransfer(Merge(existing, TransferFields(t))) == Some(t)
  {
    var m := Merge(existing, TransferFields(t));
    var f := TransferFields(t);
    assert forall x :: x in f ==> m[x] == f[x];
  }

  /** The TokensMinted an event produces: `mintedTo`, `uri` and `quantityMinted` exactly as given. */
  function MintOf(e: Event, tokenIdMinted: string, mintedTo: string, uri: string, quantityMinted: int)
    : (t: TokensMintedEntity)
    ensures t.horizon == e.horizon && t.chainId == e.chainId && t.blockTimestamp == e.blockTimestamp
    ensures t.txHash == e.txHash
    ensures t.collectionId == CollectionKey(e.chainId, e.logAddress)
    ensures t.mintedTo == mintedTo && t.uri == uri && t.quantityMinted == quantityMinted
    ensures t.tokenIdMinted == tokenIdMinted
  {
    TokensMintedEntity(
      horizon := e.horizon,
      chainId := e.chainId,
      blockTimestamp := e.blockTimestamp,
      txHash := e.txHash,
      collectionId := CollectionKey(e.chainId, e.logAddress),
      tokenIdMinted := tokenIdMinted,
      mintedTo := mintedTo,
      uri := uri,
      quantityMinted := quantityMinted)
  }

  /** A TokensMinted read back from its stored fields. */
  function ParseMint(r: Record): Option<TokensMintedEntity> {
    if && Horizon in r && r[Horizon].Mark?
       && ChainId in r && r[ChainId].Num? && r[ChainId].n >= 0
       && BlockTimestamp in r && r[BlockTimestamp].Num?
       && TxHash in r && r[TxHash].Str?
       && CollectionId in r && r[CollectionId].Str?
       && TokenIdMinted in r && r[TokenIdMinted].Str?
       && MintedTo in r && r[MintedTo].Str?
       && Uri in r && r[Uri].Str?
       && QuantityMinted in r && r[QuantityMinted].Num?
    then
      Some(TokensMintedEntity(r[Horizon].h, r[ChainId].n, r[BlockTimestamp].n, r[TxHash].s,
        r[CollectionId].s, r[TokenIdMinted].s, r[MintedTo].s, r[Uri].s, r[QuantityMinted].n))
    else
      None
  }

  /** The fields upsertTokensMinted writes for a mint; they read back as that mint. */
  function MintFields(t: TokensMintedEntity): (r: Record)
    ensures r.Keys == {Horizon, ChainId, BlockTimestamp, TxHash, CollectionId, TokenIdMinted, MintedTo, Uri, QuantityMinted}
    ensures ParseMint(r) == Some(t)
  {
    map[
      Horizon := Mark(t.horizon),
      ChainId := Num(t.chainId),
      BlockTimestamp := Num(t.blockTimestamp),
      TxHash := Str(t.txHash),
      CollectionId := Str(t.collectionId),
      TokenIdMinted := Str(t.tokenIdMinted),
      MintedTo := Str(t.mintedTo),
      Uri := Str(t.uri),
      QuantityMinted := Num(t.quantityMinted)
    ]
  }

  /** Whatever was stored before, merging a mint's fields leaves a record that reads back as that mint. */
  lemma MintFieldsOverwrite(existing: Option<Record>, t: TokensMintedEntity)
    ensures ParseMint(Merge(existing, MintFields(t))) == Some(t)
  {
    var m := Merge(existing, MintFields(t));
    var f := MintFields(t);
    assert forall x :: x in f ==> m[x] == f[x];
  }

  /** `upsertTokensMinted`: one merge at the event key under the TokensMinted kind. */
  method UpsertTokensMinted(db: Database, e: Event, tokenIdMinted: string, mintedTo: string, uri: string, quantityMinted: int)
    returns (r: Record)
    modifies db
    ensures db.store == Write(old(db.store), EventEntityKey(Mint, e), MintFields(MintOf(e, tokenIdMinted, mintedTo, uri, quantityMinted)))
    ensures r == db.store[EventEntityKey(Mint, e)]
    ensures ParseMint(r) == Some(MintOf(e, tokenIdMinted, mintedTo, uri, quantityMinted))
    ensures forall k: Key :: k.kind != Mint ==> Lookup(db.store, k) == Lookup(old(db.store), k)
    ensures db.writes == old(db.writes) + [EventEntityKey(Mint, e)]
    ensures db.lookups == old(db.lookups)
  {
    var entityId := EventKey(e.chainId, e.logAddress, e.txHash, e.localIndex);
    r := db.Upsert(Mint, entityId, MintFields(MintOf(e, tokenIdMinted, mintedTo, uri, quantityMinted)));
    WriteKeepsOtherKinds(old(db.store), Key(Mint, entityId), MintFields(MintOf(e, tokenIdMinted, mintedTo, uri, quantityMinted)));
    MintFieldsOverwrite(Lookup(old(db.store), Key(Mint, entityId)), MintOf(e, tokenIdMinted, mintedTo, uri, quantityMinted));
  }

  // Properties of token resolution

  /** A successful resolution leaves its result stored under the token key. */
  lemma ResolveResultIsStored(s: Store, chainId: nat, address: string, tokenId: string, cache: bool, extra: Option<Record>)
    ensures var res := ResolveToken(s, chainId, address, tokenId, cache, extra);
      res.result.Ok? ==> Lookup(res.store, TokenEntityKey(chainId, address, tokenId)) == Some(res.result.value)
  {
  }

  /** Resolution touches no entry other than the token's own, and none of another kind. */
  lemma ResolveChangesOnlyTokenKey(s: Store, chainId: nat, address: string, tokenId: string, cache: bool, extra: Option<Record>)
    ensures var res := ResolveToken(s, chainId, address, tokenId, cache, extra);
      forall k: Key :: k != TokenEntityKey(chainId, address, tokenId) ==> Lookup(res.store, k) == Lookup(s, k)
  {
  }

  /**
   * On the write path the stored record carries the identity fields (the
   * collection key lower-cased, the address and token id exactly as
   * given) unless `extra` overrides them, every field of `extra`, and
   * every other field it had before.
   */
  lemma ResolveWrittenRecord(s: Store, chainId: nat, address: string, tokenId: string, cache: bool, extra: Option<Record>)
    requires ValidIdentity(chainId, address)
    requires !ReturnsStored(s, TokenEntityKey(chainId, address, tokenId), cache, extra)
    ensures var k := TokenEntityKey(chainId, address, tokenId);
      var t := ResolveToken(s, chainId, address, tokenId, cache, extra).store[k];
      && (CollectionId !in OrEmpty(extra) ==> t[CollectionId] == Str(CollectionKey(chainId, address)))
      && (ChainId !in OrEmpty(extra) ==> t[ChainId] == Num(chainId))
      && (Address !in OrEmpty(extra) ==> t[Address] == Str(address))
      && (TokenId !in OrEmpty(extra) ==> t[TokenId] == Str(tokenId))
      && (forall f :: f in OrEmpty(extra) ==> t[f] == OrEmpty(extra)[f])
      && (forall f :: k in s && f in s[k] && f !in {CollectionId, ChainId, Address, TokenId} && f !in OrEmpty(extra)
            ==> t[f] == s[k][f])
  {
  }

  /**
   * Resolving the same token twice in a row gives the same result and the
   * same store as resolving it once: a repeated call never duplicates or
   * alters what the first one produced.
   */
  lemma ResolveTwiceIsResolveOnce(s: Store, chainId: nat, address: string, tokenId: string, cache: bool, extra: Option<Record>)
    ensures var first := ResolveToken(s, chainId, address, tokenId, cache, extra);
      var second := ResolveToken(first.store, chainId, address, tokenId, cache, extra);
      second.result == first.result && second.store == first.store
  {
    var first := ResolveToken(s, chainId, address, tokenId, cache, extra);
    if ValidIdentity(chainId, address) {
      var k := TokenEntityKey(chainId, address, tokenId);
      var p := TokenPayload(chainId, address, tokenId, extra);
      if first.wrote {
        WriteIdempotent(s, k, p);
        assert first.store[k] == Write(first.store, k, p)[k];
      }
    }
  }

  /**
   * A complete Token stays complete through any resolution, as long as the
   * token id is non-empty and `extra` does not blank a required field.
   */
  lemma ResolveKeepsComplete(s: Store, chainId: nat, address: string, tokenId: string, cache: bool, extra: Option<Record>)
    requires TokenEntityKey(chainId, address, tokenId) in s
    requires HasRequiredFields(s[TokenEntityKey(chainId, address, tokenId)])
    requires tokenId != ""
    requires forall f :: f in OrEmpty(extra) && f in {Standard, CollectionId, TokenId} ==> OrEmpty(extra)[f].Truthy()
    ensures var res := ResolveToken(s, chainId, address, tokenId, cache, extra);
      HasRequiredFields(res.store[TokenEntityKey(chainId, address, tokenId)])
  {
    var k := TokenEntityKey(chainId, address, tokenId);
    var res := ResolveToken(s, chainId, address, tokenId, cache, extra);
    if ValidIdentity(chainId, address) && !ReturnsStored(s, k, cache, extra) {
      var t := res.store[k];
      var ex := OrEmpty(extra);
      ResolveWrittenRecord(s, chainId, address, tokenId, cache, extra);
      assert IsSet(t, Standard) by {
        if Standard in ex { assert t[Standard] == ex[Standard]; }
        else { assert t[Standard] == s[k][Standard]; }
      }
      assert IsSet(t, CollectionId) by {
        if CollectionId !in ex { assert t[CollectionId] == Str(CollectionKey(chainId, address)); }
      }
      assert IsSet(t, TokenId);
    }
  }

  /**
   * The token id is not validated: with the cache bypassed, an empty token
   * id turns a complete stored Token back into an incomplete one.
   */
  lemma EmptyTokenIdUncompletes()
    ensures var k := TokenEntityKey(1, "0xa", "");
      var s := map[k := map[Standard := Str("ERC721"), CollectionId := Str("1:0xa"), TokenId := Str("7")]];
      var res := ResolveToken(s, 1, "0xa", "", false, None);
      HasRequiredFields(s[k]) && res.result.Ok? && !HasRequiredFields(res.store[k])
  {
    var k := TokenEntityKey(1, "0xa", "");
    var s := map[k := map[Standard := Str("ERC721"), CollectionId := Str("1:0xa"), TokenId := Str("7")]];
    ResolveWrittenRecord(s, 1, "0xa", "", false, None);
  }

  /**
   * Resolving an unseen token creates it: key `10xabc:5` (no separator
   * between chain id and address), collection id `1:0xabc`, and the address
   * kept in its original case.
   */
  lemma ResolveCreatesToken()
    ensures var token := map[CollectionId := Str("1:0xabc"), ChainId := Num(1), Address := Str("0xABC"), TokenId := Str("5")];
      ResolveToken(map[], 1, "0xABC", "5", true, None)
        == Resolution(Ok(token), map[Key(Token, "10xabc:5") := token], true, true)
  {
    ResolveInEmptyStore(1, "0xABC", "5", true, None);
    ExamplePayload();
  }

  /** In an empty store a valid resolution writes exactly its payload. */
  lemma ResolveInEmptyStore(chainId: nat, address: string, tokenId: string, cache: bool, extra: Option<Record>)
    requires ValidIdentity(chainId, address)
    ensures var k := TokenEntityKey(chainId, address, tokenId);
      var p := TokenPayload(chainId, address, tokenId, extra);
      ResolveToken(map[], chainId, address, tokenId, cache, extra) == Resolution(Ok(p), map[k := p], cache, true)
  {
    var k := TokenEntityKey(chainId, address, tokenId);
    var p := TokenPayload(chainId, address, tokenId, extra);
    assert Merge(Lookup(map[], k), p) == p;
  }

  lemma ExamplePayload()
    ensures TokenEntityKey(1, "0xABC", "5") == Key(Token, "10xabc:5")
    ensures TokenPayload(1, "0xABC", "5", None)
         == map[CollectionId := Str("1:0xabc"), ChainId := Num(1), Address := Str("0xABC"), TokenId := Str("5")]
  {
    TokenKeyExample();
  }

  /**
   * upsertToken stores under the caller's `entityId` as given; an id with an
   * upper-case letter can never be one that getToken or getOrCreateToken
   * derives.
   */
  lemma MixedCaseEntityIdIsUnreachable(entityId: string, chainId: nat, address: string, tokenId: string)
    requires !IsLowerCase(entityId)
    ensures Key(Token, entityId) != TokenEntityKey(chainId, address, tokenId)
  {
  }

  // Properties of the event upserts

  /** Replaying a Transfer upsert with the same event and arguments leaves the store of one upsert. */
  lemma TransferReplayIsIdempotent(s: Store, e: Event, tokenId: string, from: string, to: string, amount: int)
    ensures var k := EventEntityKey(Transfer, e);
      var p := TransferFields(TransferOf(e, tokenId, from, to, amount));
      Write(Write(s, k, p), k, p) == Write(s, k, p)
  {
    WriteIdempotent(s, EventEntityKey(Transfer, e), TransferFields(TransferOf(e, tokenId, from, to, amount)));
  }

  /** Replaying a TokensMinted upsert with the same event and arguments leaves the store of one upsert. */
  lemma MintReplayIsIdempotent(s: Store, e: Event, tokenIdMinted: string, mintedTo: string, uri: string, quantityMinted: int)
    ensures var k := EventEntityKey(Mint, e);
      var p := MintFields(MintOf(e, tokenIdMinted, mintedTo, uri, quantityMinted));
      Write(Write(s, k, p), k, p) == Write(s, k, p)
  {
    WriteIdempotent(s, EventEntityKey(Mint, e), MintFields(MintOf(e, tokenIdMinted, mintedTo, uri, quantityMinted)));
  }

  /**
   * The Transfer of chain 1, contract `0xAbc`, transaction `0xT1`, log 2 is
   * stored at `1:0xabc:0xt1:2`, with lower-cased parties, the transaction
   * hash `0xT1` as given and the amount 10^18 kept exactly.
   */
  lemma TransferScenario(h: HorizonMark, ts: int)
    ensures var e := Event(1, "0xAbc", 2, "0xT1", ts, h);
      var t := TransferOf(e, "5", "0xFrom", "0xTo", 1000000000000000000);
      && EventEntityKey(Transfer, e).id == "1:0xabc:0xt1:2"
      && t.collectionId == "1:0xabc"
      && t.txHash == "0xT1"
      && t.from == "0xfrom" && t.to == "0xto"
      && t.amount == 1000000000000000000
  {
    EventKeyExample();
    assert Lower("0xFrom") == "0xfrom";
    assert Lower("0xTo") == "0xto";
  }

  /** A Transfer lower-cases its parties but a mint keeps `mintedTo` as given. */
  lemma MintedToKeepsCase(e: Event)
    ensures MintOf(e, "1", "0xAB", "", 1).mintedTo == "0xAB"
    ensures TransferOf(e, "1", "0xAB", "0xAB", 1).to == "0xab"
  {
    assert Lower("0xAB") == "0xab";
  }
}

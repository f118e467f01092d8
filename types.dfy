/**
 * The entity kinds, field names and field values of the indexer's data
 * model, and the envelope every event handler receives.
 */
module Types {

  /**
   * The kind of an entity: the `entityType` half of every storage key.
   * `Mint` is stored as "TokensMinted" and `DirectListings` as "NewListing".
   */
  datatype EntityType =
    | Collection
    | Token
    | Metadata
    | Mint
    | DirectListings
    | Transfer
    | Ownership

  /**
   * The attribute names of the Token, Transfer and TokensMinted records.
   * A stored record is a partial map from these names to values.
   */
  datatype Field =
    // Token
    | CollectionId | ChainId | Address | TokenId | Standard
    | MintBlockTimestamp | MintTxHash | BurnBlockTimestamp | BurnTxHash
    | MetadataUri | MetadataContent | MetadataLastErrorAt | MetadataLastError | MetadataLastUpdateAt
    // Transfer and TokensMinted
    | Horizon | BlockTimestamp | TxHash
    | From | To | Amount
    | TokenIdMinted | Uri | MintedTo | QuantityMinted

  /** The upstream ordering marker of an event; this core only carries it along. */
  datatype HorizonMark = HorizonMark(marker: string)

  /**
   * A field value: a string, a JavaScript number, an arbitrary-precision
   * integer (an ethers BigNumber) or a horizon marker.
   */
  datatype Value =
    | Str(s: string)
    | Num(n: int)
    | Big(b: int)
    | Mark(h: HorizonMark)
  {
    /**
     * JavaScript truthiness: the empty string and 0 are falsy, while a
     * BigNumber and a horizon are objects and so always truthy.
     */
    predicate Truthy() {
      match this
      case Str(s) => s != ""
      case Num(n) => n != 0
      case Big(_) => true
      case Mark(_) => true
    }
  }

  /** The part of an event handler's input that the upserts read. */
  datatype Event = Event(
    chainId: nat,
    logAddress: string,
    localIndex: nat,
    txHash: string,
    blockTimestamp: int,
    horizon: HorizonMark)

  /** A Transfer record: one historical transfer of one token. */
  datatype TransferEntity = TransferEntity(
    horizon: HorizonMark,
    chainId: nat,
    blockTimestamp: int,
    txHash: string,
    collectionId: string,
    tokenId: string,
    from: string,
    to: string,
    amount: int)

  /** A TokensMinted record: one historical mint. */
  datatype TokensMintedEntity = TokensMintedEntity(
    horizon: HorizonMark,
    chainId: nat,
    blockTimestamp: int,
    txHash: string,
    collectionId: string,
    tokenIdMinted: string,
    mintedTo: string,
    uri: string,
    quantityMinted: int)
}

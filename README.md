# Token entity resolution and upserts of the ERC721/ERC1155 indexer, in Dafny

This project models the token library of the ERC721/ERC1155 NFT indexer
(`erc721-and-erc1155-nft-indexing/src/lib/tokens.ts`). The library turns
decoded chain events into records of an entity store. It does three things:

- It derives the storage identifiers. A Token's key is the chain id and the
  contract address joined with no separator, then `:` and the token id. A
  collection's key is `chainId:address`. A Transfer's or mint's key is
  `chainId:address:txHash:localIndex`. All three are lower-cased.
- It resolves a Token (`getOrCreateToken`). An invalid call is rejected.
  A stored record is returned without a write when it is complete or when
  the caller brings nothing new. Otherwise the identity fields and the
  caller's `extra` fields are merged into the record at the token key.
- It performs direct upserts: `upsertToken`, `upsertTransfer` and
  `upsertTokensMinted`.

The entity store (the indexing SDK's `database`) is an abstract map from
(entity type, entity id) to a field record. Its upsert merges fields: the
payload's fields overwrite, every other field is kept. It is the class
`Storage.Database`. It keeps two ghost logs, of the keys it was read at and
of the keys it was written at, so that "no read", "no write" and "exactly
one write" can be stated. The library's
functions are methods over a `Database`. Each is proved against a pure
function of the store before the call. The properties are proved about
those functions.

Modules: `Wrappers` (Option, Result), `Strings` (ASCII lower-casing,
decimal rendering of a natural number and its inverse), `Types` (the
entity kinds, field names, values and record shapes of `types.ts`, and the
event envelope), `Keys` (the three key derivations), `Storage` (the store)
and `Tokens` (the library itself).

Behaviours of the code a reader may not expect:

- The stored `address` of a newly created Token keeps its original case.
  Only the key and `collectionId` are lower-cased (`ResolveCreatesToken`).
- `getOrCreateToken` rejects only a zero chain id or an empty address. The
  token id is not checked (`ResolveToken`, `EmptyTokenIdUncompletes`).
- When a complete Token is resolved with the cache on, `extra` is ignored
  and the stored record comes back unchanged. `extra`'s fields are not
  added to it.
- The token key has no separator between chain id and address
  (`TokenKeyJoinIsAmbiguous`). The collision needs a contract that is not
  `0x`-prefixed; with `0x` addresses equal token keys mean equal chain ids
  (`TokenKeyHexAddressFixesChain`).

## Model

| member | source | states |
|---|---|---|
| `Strings.Lower` | erc721-and-erc1155-nft-indexing/src/lib/tokens.ts:37 | `toLowerCase` keeps the length, lower-cases each ASCII letter and leaves every other character alone; the result has no upper-case letter |
| `Strings.LowerIdempotent` | erc721-and-erc1155-nft-indexing/src/lib/tokens.ts:36-37 | lower-casing a second time changes nothing |
| `Strings.NatToString` | erc721-and-erc1155-nft-indexing/src/lib/tokens.ts:37 | `chainId.toString()` is a non-empty run of decimal digits with no leading zero |
| `Strings.ParseNatToString` | erc721-and-erc1155-nft-indexing/src/lib/tokens.ts:37 | reading the decimal rendering back gives the number |
| `Strings.NatToStringInjective` | erc721-and-erc1155-nft-indexing/src/lib/tokens.ts:37 | different chain ids render differently |
| `Keys.TokenKey` | erc721-and-erc1155-nft-indexing/src/lib/tokens.ts:36-37 | the token key is the decimal chain id, the lower-cased address with no separator, `:`, the lower-cased token id; it is lower-case and lower-casing it again changes nothing |
| `Keys.CollectionKey` | erc721-and-erc1155-nft-indexing/src/lib/tokens.ts:55 | the collection key is the decimal chain id, `:`, the lower-cased address; it is lower-case |
| `Keys.EventKey` | erc721-and-erc1155-nft-indexing/src/lib/tokens.ts:104-105 | the event key is the collection key, `:`, the lower-cased transaction hash, `:`, the decimal log index; it is lower-case |
| `Keys.TokenKeyCaseInsensitive` | erc721-and-erc1155-nft-indexing/src/lib/tokens.ts:83-84 | addresses and token ids that differ only in case give the same token key |
| `Keys.TokenKeyDeterminesTokenId` | erc721-and-erc1155-nft-indexing/src/lib/tokens.ts:36-37 | for one chain and contract, equal token keys mean token ids equal up to case |
| `Keys.TokenKeyJoinIsAmbiguous` | erc721-and-erc1155-nft-indexing/src/lib/tokens.ts:36-37 | chain 1 with contract `1x` and chain 11 with contract `x` share token key `11x:5`, while their collection keys differ |
| `Keys.TokenKeyHexAddressFixesChain` | erc721-and-erc1155-nft-indexing/src/lib/tokens.ts:36-37 | when both addresses start with `0x` or `0X`, equal token keys mean equal chain ids |
| `Keys.TokenKeyExample` | erc721-and-erc1155-nft-indexing/src/lib/tokens.ts:36-37 | token 5 of `0xABC` on chain 1 has key `10xabc:5` and collection key `1:0xabc` |
| `Keys.EventKeyExample` | erc721-and-erc1155-nft-indexing/src/lib/tokens.ts:104-105 | log 2 of transaction `0xT1` from `0xAbc` on chain 1 has key `1:0xabc:0xt1:2` |
| `Storage.Merge` | erc721-and-erc1155-nft-indexing/src/lib/tokens.ts:52-60 | the merged record has the fields of both; payload fields win, the other stored fields are kept |
| `Storage.Write` | erc721-and-erc1155-nft-indexing/src/lib/tokens.ts:71-74 | an upsert adds its key, stores the merge there and leaves every other key as it was |
| `Storage.MergeIdempotent` | erc721-and-erc1155-nft-indexing/src/lib/tokens.ts:102-115 | merging the same payload twice gives the record of one merge |
| `Storage.WriteIdempotent` | erc721-and-erc1155-nft-indexing/src/lib/tokens.ts:102-115 | two identical upserts leave the store of one |
| `Storage.WriteKeepsOtherKinds` | erc721-and-erc1155-nft-indexing/src/lib/tokens.ts:52-53 | an upsert under one entity type leaves every entry of another type unchanged |
| `Storage.Database.Get` | erc721-and-erc1155-nft-indexing/src/lib/tokens.ts:86-90 | `database.get` returns the record at the key, or nothing when none is stored; it changes no entry, issues no write and logs one lookup |
| `Storage.Database.Upsert` | erc721-and-erc1155-nft-indexing/src/lib/tokens.ts:71-74 | `database.upsert` merges at the key, returns the merged record, logs one write and no lookup |
| `Types.Value.Truthy` | erc721-and-erc1155-nft-indexing/src/lib/tokens.ts:15-17 | JavaScript truthiness of a field value: `""` and `0` are falsy, a BigNumber and a horizon object are always truthy |
| `Tokens.HasRequiredFields` | erc721-and-erc1155-nft-indexing/src/lib/tokens.ts:15-17 | `hasRequiredFields`: `standard`, `collectionId` and `tokenId` are all present and truthy |
| `Tokens.ValidIdentity` | erc721-and-erc1155-nft-indexing/src/lib/tokens.ts:26-34 | the guard of getOrCreateToken: chain id non-zero and address non-empty; the token id is not tested |
| `Tokens.ReturnsStored` | erc721-and-erc1155-nft-indexing/src/lib/tokens.ts:40-50 | the two early returns: with the cache on, a stored token that is complete, or any stored token when `extra` is absent |
| `Tokens.HasUpsertFields` | erc721-and-erc1155-nft-indexing/src/lib/tokens.ts:67-69 | the guard of upsertToken: chain id, collection id and token id all present and truthy |
| `Tokens.TokenEntityKey` | erc721-and-erc1155-nft-indexing/src/lib/tokens.ts:83-88 | a Token is stored under the Token type at a lower-case id |
| `Tokens.TokenPayload` | erc721-and-erc1155-nft-indexing/src/lib/tokens.ts:52-60 | the payload holds collection id (lower-cased), chain id, address and token id (as given) and every `extra` field; `extra` wins on each field it sets |
| `Tokens.ResolveToken` | erc721-and-erc1155-nft-indexing/src/lib/tokens.ts:15-60 | rejected exactly when chain id is 0 or address is empty, with no read or write; the token key is read exactly when the call is valid and the cache is on; with the cache on, a stored record that is complete, or any stored record when `extra` is absent, is returned unchanged with no write; otherwise exactly one merge of the payload at the token key, whose result is returned |
| `Tokens.GetToken` | erc721-and-erc1155-nft-indexing/src/lib/tokens.ts:77-91 | returns what the store holds under the token key, with one lookup there and no write |
| `Tokens.GetOrCreateToken` | erc721-and-erc1155-nft-indexing/src/lib/tokens.ts:19-62 | result, new store, write log and lookup log are those `ResolveToken` prescribes for the store before the call |
| `Tokens.UpsertToken` | erc721-and-erc1155-nft-indexing/src/lib/tokens.ts:64-75 | fails and leaves the store unwritten exactly when chain id, collection id or token id is missing or falsy; otherwise one merge at the caller's entity id, returned; never a lookup |
| `Tokens.EventEntityKey` | erc721-and-erc1155-nft-indexing/src/lib/tokens.ts:103-105 | an event entity is stored under its own type at a lower-case id |
| `Tokens.TransferOf` | erc721-and-erc1155-nft-indexing/src/lib/tokens.ts:102-115 | a Transfer copies horizon, chain id, block timestamp and transaction hash from the event, the hash in its original case although the key lower-cases it; its collection id is the collection key; `from` and `to` are lower-case and equal to the arguments up to case; amount and token id are kept exactly |
| `Tokens.TransferFields` | erc721-and-erc1155-nft-indexing/src/lib/tokens.ts:106-114 | the Transfer payload sets exactly its nine fields and reads back as the Transfer |
| `Tokens.TransferFieldsOverwrite` | erc721-and-erc1155-nft-indexing/src/lib/tokens.ts:102-115 | whatever was stored before, the record after a Transfer upsert reads back as that Transfer |
| `Tokens.UpsertTransfer` | erc721-and-erc1155-nft-indexing/src/lib/tokens.ts:93-116 | one merge at the Transfer event key; the result reads back as the event's Transfer; no entry of another type changes; no lookup |
| `Tokens.MintOf` | erc721-and-erc1155-nft-indexing/src/lib/tokens.ts:126-139 | a mint copies horizon, chain id, block timestamp and transaction hash from the event; its collection id is the collection key; `mintedTo`, `uri`, `quantityMinted` and the token id are kept exactly as given |
| `Tokens.MintFields` | erc721-and-erc1155-nft-indexing/src/lib/tokens.ts:130-138 | the mint payload sets exactly its nine fields and reads back as the mint |
| `Tokens.MintFieldsOverwrite` | erc721-and-erc1155-nft-indexing/src/lib/tokens.ts:126-139 | whatever was stored before, the record after a mint upsert reads back as that mint |
| `Tokens.UpsertTokensMinted` | erc721-and-erc1155-nft-indexing/src/lib/tokens.ts:118-140 | one merge at the event key under the TokensMinted type; the result reads back as the event's mint; no entry of another type changes; no lookup |
| `Tokens.ResolveResultIsStored` | erc721-and-erc1155-nft-indexing/src/lib/tokens.ts:40-60 | a successful resolution's result is what the store holds under the token key afterwards |
| `Tokens.ResolveChangesOnlyTokenKey` | erc721-and-erc1155-nft-indexing/src/lib/tokens.ts:52-60 | resolution changes no entry except the token's own |
| `Tokens.ResolveWrittenRecord` | erc721-and-erc1155-nft-indexing/src/lib/tokens.ts:52-60 | on the write path the stored Token has the identity fields unless `extra` overrides them, every `extra` field, and every other field it had before |
| `Tokens.ResolveTwiceIsResolveOnce` | erc721-and-erc1155-nft-indexing/src/lib/tokens.ts:39-60 | resolving the same token twice in a row gives the result and store of resolving it once |
| `Tokens.ResolveKeepsComplete` | erc721-and-erc1155-nft-indexing/src/lib/tokens.ts:15-60 | a complete Token stays complete through any resolution with a non-empty token id whose `extra` does not blank a required field |
| `Tokens.EmptyTokenIdUncompletes` | erc721-and-erc1155-nft-indexing/src/lib/tokens.ts:26-60 | with the cache off, an empty token id turns a complete Token incomplete, since the token id is not checked |
| `Tokens.ResolveInEmptyStore` | erc721-and-erc1155-nft-indexing/src/lib/tokens.ts:52-60 | in an empty store a valid resolution stores exactly its payload and returns it |
| `Tokens.ResolveCreatesToken` | erc721-and-erc1155-nft-indexing/src/lib/tokens.ts:36-60 | resolving token 5 of `0xABC` on chain 1 in an empty store creates `10xabc:5` with collection id `1:0xabc` and address `0xABC` |
| `Tokens.MixedCaseEntityIdIsUnreachable` | erc721-and-erc1155-nft-indexing/src/lib/tokens.ts:64-75 | an entity id with an upper-case letter, which upsertToken stores as given, is never a key getToken derives |
| `Tokens.TransferReplayIsIdempotent` | erc721-and-erc1155-nft-indexing/src/lib/tokens.ts:102-115 | replaying a Transfer upsert leaves the store of one upsert |
| `Tokens.MintReplayIsIdempotent` | erc721-and-erc1155-nft-indexing/src/lib/tokens.ts:126-139 | replaying a mint upsert leaves the store of one upsert |
| `Tokens.TransferScenario` | erc721-and-erc1155-nft-indexing/src/lib/tokens.ts:102-115 | the Transfer of chain 1, contract `0xAbc`, transaction `0xT1`, log 2, from `0xFrom` to `0xTo` with amount 10^18 is stored at `1:0xabc:0xt1:2` with collection id `1:0xabc`, parties `0xfrom` and `0xto`, transaction hash `0xT1` as given and the amount 10^18 exactly |
| `Tokens.MintedToKeepsCase` | erc721-and-erc1155-nft-indexing/src/lib/tokens.ts:112-136 | a mint keeps `mintedTo` as `0xAB`, while a Transfer stores the same address as `0xab` |

## Left out

- `multiplex`, the in-flight deduplication around the resolution body (key `token:` followed by the token key, time-to-live 60000 ms), is concurrency and timing; each model call runs the body exactly once. Its file is not part of this model.
- The store's internals: durability, indexing and the `cache` flag passed to `database.get`. `GetToken` accepts that flag and ignores it. Storage failures are not modelled: every get and upsert succeeds.
- Stored records hold only their fields; `entityType` and `entityId` are the storage key and are not repeated inside the record.
- `Tokens.GetOrCreateToken`: `extra` ranges over every `Types.Field` name with any `Value`; no value is typed per field. An `extra` that carries `entityId` or `entityType` would redirect the write in the source, because the spread comes last; the model does not represent that case. An `extra` field explicitly set to `undefined` is not modelled either.
- `Tokens.UpsertToken`: the input ranges over every `Types.Field` name with any `Value`, plus the separate `entityId`, so an input `entityType` that overrides `Token` is not modelled.
- `Strings.Lower`: lower-cases ASCII letters only, where JavaScript's `toLowerCase` also maps other Unicode letters.
- Chain ids are natural numbers: a negative, fractional or NaN `number` is not modelled, so `!chainId` holds exactly for 0. Block timestamps and `quantityMinted` are integers. Numbers are unbounded: a JavaScript `number` is exact only up to 2^53, and its string form switches to exponent notation from 10^21 (`1e+21`), so `Strings.NatToString`, and with it `Keys.TokenKey`, `Keys.CollectionKey` and `Keys.EventKey`, match the source only for chain ids and log indices below those bounds; the same bound applies to `localIndex`, `blockTimestamp` and `quantityMinted`.
- `BigNumber.from(amount)` takes an integer here; parsing of hexadecimal or decimal strings, its errors on malformed input, and its error on a JavaScript number that is not a safe integer (2^53 or more, or a fraction) are not modelled.
- The text of the thrown error messages (`JSON.stringify` of the arguments); only the failure is modelled.
- The default `cache = true` argument: callers pass it explicitly.
- The commented-out `upsertNewListing` and `upsertPlatformFeeInfoUpdated` (dead code).
- The marketplace event handlers: glue over `getOrCreateCollection` and a bounded-concurrency runner, whose files are not part of this model.
- The Collection and Ownership records are not written by the modelled functions, so only their entity types appear.

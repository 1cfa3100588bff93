# Candy-machine distributor scripts, modelled in Dafny

The distributor is a pair of TypeScript scripts. They set up a Metaplex
candy machine on Solana and mint NFTs from it. Under the network plumbing
they hold three pure layers, and this project models each as immutable data
and pure functions:

- **The UTF-8 decoder `fromUTF8Array`** (src/utils.ts). It is a loop over a
  byte array:
  - it classifies each lead byte;
  - it consumes one to four bytes;
  - it appends UTF-16 code units to a JavaScript string, one unit per step or
    a surrogate pair for a four-byte step.

  The model keeps JavaScript's semantics:
  - the bitwise operators act on 32-bit patterns (`bv32`);
  - `>>` propagates the sign (`JsBits.Sar`);
  - `String.fromCharCode` keeps 16 bits (`JsBits.ToUint16`);
  - a read past the end of the array is `undefined`, which `& 0x3f` turns
    into 0 (`Utf8.At`).

  The method `Utf8.FromUtf8Array` runs the source's loop. `Utf8.Decode` is
  the same decoding stated recursively, step by step. The main theorem,
  `Utf8.DecodesUtf8Text`, says that the decoder maps the UTF-8 encoding of
  any text (section 3 of RFC 3629) to its UTF-16 encoding (section 2.1 of
  RFC 2781).
- **Accounts and address seeds** (src/utils.ts):
  - the hand-built associated-token-account (ATA) instruction, with its fixed
    seven-entry account list and its signer and writable flags;
  - the four seed lists handed to `findProgramAddress`.

  Address derivation is a parameter: a deterministic function from seeds and
  a program id to an address and a bump. Where distinctness of accounts is
  claimed, the lemma assumes `Solana.CollisionFree`: no two different seed
  lists or program ids derive the same address. This is an idealisation.
  It is stronger than the collision resistance of SHA-256, because the real
  function hashes the seeds concatenated without length prefixes.
- **Storage size and the two workflows** (src/index.ts, src/mintNFT.ts):
  - the exact byte count of the config account;
  - the ordered instruction list of `initializeMachine` and `mintNFT`, with
    their amounts, authorities and signer sets. Each workflow is a value of
    `Instructions.Rpc`, which Anchor turns into one transaction (the extra
    instructions, then the program call).

Fresh keypairs, the wallet, the catalog read from `mint_data.json`, the
derivation and the rent-exemption query are all parameters.

Modules: `JsBits` (js_bits.dfy), `Utf8` (utf8.dfy), `Solana` (solana.dfy),
`Addresses` (addresses.dfy), `Instructions` (instructions.dfy), `Layout`
(layout.dfy), `Initialize` (initialize.dfy), `Minting` (mint_nft.dfy).

## Model

| member | source | states |
|---|---|---|
| Utf8.StepOn | src/utils.ts:9-39 | One iteration consumes between one and four bytes. It appends two code units exactly when it consumes four, and one otherwise. |
| Utf8.DecodeFrom | src/utils.ts:9-39 | From an index at or past the end, the loop appends nothing. Otherwise it appends at least one unit and at most one more unit than there are bytes left, because the last step may run past the end. |
| Utf8.DecodeOne | src/utils.ts:10-38 | One iteration advances the index by the sequence length the lead byte announces, or by four when it announces none. It appends two units on a four-byte step and one otherwise, and copies an ASCII byte. Where the UTF-8 encoding of a scalar value starts at the index, the units are that value's UTF-16 encoding and the width is the encoding's length. |
| Utf8.Decode | src/utils.ts:4-42 | The decoded string is empty exactly for the empty array, and at most one unit longer than the array. |
| JsBits.Sar | src/utils.ts:34 | JavaScript's `>>` keeps the sign bit, and a shift by 0 changes nothing. The shift by ten the decoder uses is described in full by `SarTenFillsSign`. |
| JsBits.ToUint16 | src/utils.ts:13-35 | `String.fromCharCode` takes its argument modulo 2^16. |
| Utf8.FromUtf8Array | src/utils.ts:4-42 | The loop returns the step-by-step decoding of the whole array, at most one code unit longer than the array. |
| Utf8.AsciiLead | src/utils.ts:12-13 | A lead byte below 0x80 consumes only itself and yields the code unit equal to it. |
| Utf8.TwoByteLead | src/utils.ts:14-16 | A lead byte 0xC0..0xDF consumes exactly two bytes and yields one unit. |
| Utf8.ThreeByteLead | src/utils.ts:17-23 | A lead byte 0xE0..0xEF consumes exactly three bytes and yields one unit. |
| Utf8.FourByteLead | src/utils.ts:24-37 | Every other lead byte consumes exactly four bytes and yields the surrogate-pair branch's two units. This includes the continuation bytes 0x80..0xBF and 0xF0..0xFF. |
| Utf8.WidthFollowsLeadByte | src/utils.ts:12-37 | A step's width is the sequence length its lead byte announces under RFC 3629. A byte that announces no sequence (a continuation byte, or 0xF8..0xFF) gets width four. |
| Utf8.ReadsPastEndAsZero | src/utils.ts:15-30 | A step near the end decodes exactly as if the array were padded with three zero bytes. |
| Utf8.TwoByteDecodes | src/utils.ts:15 | On a well-formed two-byte sequence, the two-byte branch yields the encoded scalar value. |
| Utf8.ThreeByteDecodes | src/utils.ts:18-22 | On a well-formed three-byte sequence, the three-byte branch yields the encoded scalar value. |
| Utf8.FourByteOffsetDecodes | src/utils.ts:26-31 | On a well-formed four-byte sequence, `charCode` is the scalar value minus 0x10000. |
| JsBits.SarTenFillsSign | src/utils.ts:34 | JavaScript's `charCode >> 10` keeps the 22 high bits. It fills the ten bits above them with copies of the sign bit. |
| Utf8.SurrogateHalves | src/utils.ts:33-36 | For an offset below 2^20, the two `fromCharCode` arguments are the high and low surrogate of RFC 2781. |
| Utf8.PairOfOffset | src/utils.ts:26-36 | Whenever the assembled `charCode` is below 2^20, the surrogate branch emits the RFC 2781 pair for it. |
| Utf8.Utf16Encode | src/utils.ts:33-36 | The units the four-byte branch must produce. A value below 0x10000 is one unit equal to itself. Any other value is a high surrogate in D800..DBFF, then a low surrogate in DC00..DFFF, and the pair recombines to the value. |
| Utf8.FourByteDecodes | src/utils.ts:26-36 | On a well-formed four-byte sequence for U+10000..U+10FFFF, the surrogate branch yields that value's UTF-16 pair. |
| Utf8.EncodingSteps | src/utils.ts:12-37 | On the UTF-8 encoding of any scalar value, the step consumes exactly the encoding's bytes and yields the value's UTF-16 encoding. |
| Utf8.StepDecodesScalar | src/utils.ts:10-37 | The same, for an encoding found at any index of a larger array. |
| Utf8.DecodeFromShift | src/utils.ts:9-39 | The loop never reads behind its index: decoding p + d from index \|p\| + i is decoding d from index i. |
| Utf8.DecodeConcat | src/utils.ts:9-39 | If the first step consumes a whole leading segment, the decoding is that step's units followed by the decoding of the rest. |
| Utf8.DecodesUtf8Text | src/utils.ts:4-42 | Decoding the UTF-8 encoding of any text yields its UTF-16 encoding. |
| Utf8.WellFormedOutputNoLonger | src/utils.ts:9-39 | On well-formed input, the output has no more code units than the input has bytes. |
| Utf8.AsciiPeels | src/utils.ts:12-13 | An ASCII byte contributes its own unit, and decoding resumes at the next byte. |
| Utf8.TwoBytePeels | src/utils.ts:14-16 | A lead byte 0xC0..0xDF contributes one unit, and decoding resumes two bytes later. |
| Utf8.ThreeBytePeels | src/utils.ts:17-23 | A lead byte 0xE0..0xEF contributes one unit, and decoding resumes three bytes later. |
| Utf8.FourBytePeels | src/utils.ts:24-37 | Any other lead byte contributes the surrogate pair, and decoding resumes four bytes later. |
| Utf8.AsciiDecodesToItself | src/utils.ts:12-13 | An all-ASCII array decodes to a string of the same length, unit for byte. |
| Utf8.StrayContinuationByte | src/utils.ts:24-37 | The lone byte 0x80 takes the surrogate branch on a negative `charCode`. It yields 0xFFC0 and then a lone low surrogate 0xDC00. |
| Utf8.TruncatedThreeByteSequence | src/utils.ts:17-23 | The truncated sequence E2 82 reads its missing third byte as 0 and yields 0x2080. |
| Instructions.CreateAssociatedTokenAccountInstruction | src/utils.ts:44-92 | The instruction has exactly seven accounts: payer, the new account, the wallet, the mint, the system program, the token program and the rent sysvar. Only index 0 signs, and only indices 0 and 1 are writable. It targets the associated-token program with empty data. |
| Instructions.SignerKeys | src/utils.ts:50-86 | A key is among an account list's signers exactly when some entry flagged as a signer carries it. |
| Instructions.AtaSignedByPayer | src/utils.ts:50-55 | The payer is the only signer the ATA instruction needs. |
| Instructions.Transaction | src/index.ts:103-141 | The transaction is the extra instructions in order, followed by the program call. |
| Solana.Uuid | src/index.ts:87 | `toBase58().slice(0, 6)` is a prefix of the key's text: six characters, or all of the text if it is shorter. |
| Addresses.TokenWalletSeeds | src/utils.ts:97 | No contract of its own. It builds the seeds [wallet, token program, mint], and `SeedsDetermineInputs` states that they determine wallet and mint. |
| Addresses.MetadataSeeds | src/utils.ts:108-112 | No contract of its own. It builds the seeds ["metadata", metadata program, mint], and `SeedsDetermineInputs` and `MetadataSeedsPrefixEdition` state their properties. |
| Addresses.MasterEditionSeeds | src/utils.ts:135-140 | No contract of its own. It builds the metadata seeds followed by "edition", as `MetadataSeedsPrefixEdition` states. |
| Addresses.CandyMachineSeeds | src/utils.ts:125 | No contract of its own. It builds the seeds ["candy_machine", config, uuid], and `SeedsDetermineInputs` states that they determine config and uuid. |
| Addresses.GetTokenWallet | src/utils.ts:94-101 | No contract of its own. It derives the address from the token-wallet seeds under the associated-token program. `DerivedAccountsDistinct` and `TokenAccountIsCreatedAndFilled` state its properties. |
| Addresses.GetMetadata | src/utils.ts:103-116 | No contract of its own. It derives the address from the metadata seeds under the metadata program. `DerivedAccountsDistinct` states that it identifies the mint. |
| Addresses.GetCandyMachine | src/utils.ts:118-128 | No contract of its own. Unlike the other three, it returns both the address and the bump derived from the candy-machine seeds under the candy-machine program. `InitializeMachineAccounts` and `MintReachesInitializedMachine` state its use. |
| Addresses.GetMasterEdition | src/utils.ts:130-144 | No contract of its own. It derives the address from the master-edition seeds under the metadata program. `DerivedAccountsDistinct` states that it identifies the mint. |
| Addresses.MetadataSeedsPrefixEdition | src/utils.ts:103-144 | The metadata seeds are a strict prefix of the master-edition seeds, which add "edition". |
| Addresses.SeedsDetermineInputs | src/utils.ts:94-144 | Each of the four seed lists is equal for two inputs exactly when the inputs are equal. |
| Addresses.DerivedAccountsDistinct | src/utils.ts:94-144 | With a collision-free derivation, the token account, metadata, master edition and candy machine are four different accounts. Metadata and master edition each identify their mint. |
| Layout.ConfigSpace | src/index.ts:126 | The space for n lines holds the header plus n lines of 240 bytes. |
| Layout.LayoutConstants | src/index.ts:18-34 | The header is 247 bytes and a line is 240 bytes. The requested space is 1456 bytes. |
| Layout.SpaceGrowsByLine | src/index.ts:126 | Each further line adds exactly 240 bytes. |
| Layout.AllocationCovers | src/index.ts:126-129 | The fixed five-line allocation holds the declared lines exactly when there are at most five. |
| Initialize.CreateConfig | src/index.ts:36-64 | initializeConfig carries the given uuid, the symbol "GEN" and a 500-basis-point fee. It declares one line per catalog entry, a max supply of 1 and mutable metadata, and passes retainAuthority through. The wallet is the only creator, unverified, with share 100. The config, the authority, the wallet as payer and the rent sysvar are its accounts. The header is valid exactly when the uuid fits six bytes. |
| Initialize.AddConfigLinesCall | src/index.ts:66-79 | addConfigLines writes the whole catalog from line 0. It names the config and the authority. |
| Initialize.InitializeMachine | src/index.ts:81-152 | Every account that funds or is created by the transaction is among its signers. `InitializeOrder` fixes those signers as exactly [wallet, authority, config]. |
| Initialize.InitializeOrder | src/index.ts:87-140 | The order is: createAccount of the config under the candy-machine program, funded by the rent for the same 1456 bytes it allocates; a 5-lamport transfer from the wallet to the authority; initializeConfig; addConfigLines; and last initializeCandyMachine. initializeConfig is `createConfig` on the first uuid with retainAuthority true, and addConfigLines is `addConfigLines` for the same config. The signers are exactly [wallet, authority, config], as at src/index.ts:121. |
| Initialize.InitializeCapacity | src/index.ts:89-139 | The declared line count, the items available and the number of lines written all equal the catalog size. The lines go from index 0. The header is valid. The allocation covers the declared lines exactly when the catalog has at most five entries. |
| Initialize.InitializeMachineAccounts | src/index.ts:93-120 | The candy machine's uuid fits six bytes. It sells at five SOL with no go-live date. Its address and bump are those derived from the config and its uuid. The call names the config, the authority, the wallet as wallet and payer, the system program and the rent sysvar. |
| Minting.MintNftRpc | src/mintNFT.ts:8-90 | Every needed signature is present exactly when the receiver is among the signers [mint, authority, wallet], because the receiver funds the new mint account. |
| Minting.MintEntry | src/mintNFT.ts:104 | At the script's entry call the receiver is the wallet: the wallet funds the new mint account, the token is minted into the wallet's own derived token account, and the transaction is fully signed. |
| Minting.MintOrder | src/mintNFT.ts:45-84 | The order is: a transfer of price plus fee from the wallet to the authority; createAccount of the mint, funded by the receiver, sized for a mint and owned by the token program; initMint with 0 decimals and the authority as mint and freeze authority; the hand-built ATA instruction for the receiver's derived token wallet, paid by the wallet; mintTo of one token into that same address under the token program, by the authority with no multisig signers; and last the mintNft call. |
| Minting.PaymentCoversPriceAndFee | src/mintNFT.ts:48-52 | 5,000,000,000 + 10,000,000 lamports is the five-SOL price plus the 0.01 SOL fee. |
| Minting.TokenAccountIsCreatedAndFilled | src/mintNFT.ts:12-83 | One derived address, from the receiver and the mint, is both the account the ATA instruction creates and the mintTo destination. |
| Minting.MintAccountsFollowMint | src/mintNFT.ts:17-43 | The call names the config, the candy machine derived from the config and the given uuid unchanged, the fresh mint and the wallet. The authority is payer, mint authority and update authority. The metadata program, token program, system program, rent sysvar and clock sysvar are the fixed ids. Metadata and master edition depend on the mint alone. |
| Minting.MintReachesInitializedMachine | src/mintNFT.ts:19-22 | Minting with the config and candy-machine uuid used at initialisation names the candy machine and config that initialisation created. |

## Left out

- src/chain.ts: wallet loading, the RPC connection, and provider and program construction are I/O.
- src/config.ts: its values appear as constants in `Solana`, and the dotenv loading is left out.
- `PublicKey.findProgramAddress`: SHA-256, the off-curve check and the bump search are a foreign library. The derivation is the parameter `derive`.
- Addresses.DerivedAccountsDistinct: its hypothesis `CollisionFree` is an idealisation, not a consequence of SHA-256's collision resistance. The real function hashes the seeds concatenated without length prefixes, so two seed lists with the same concatenation derive the same address. For the four lists here the concatenations have different lengths: 96, 72 and 79 bytes, and 45 plus the uuid's length, which is at most 51 for the six-character uuids the scripts use. Stating the hypothesis over the concatenated bytes would need the byte encoding of keys, which is not modelled.
- `getMinimumBalanceForRentExemption`: a network query. It is the parameter `rent`.
- Submission, confirmation and the console logging of errors: I/O, with no state the model could observe. `initializeMachine` logs an error and rethrows it (src/index.ts:148-151); `mintNFT` logs it and swallows it (src/mintNFT.ts:87-89).
- Anchor/Borsh payload encoding, the program's interface file, and the byte encodings of `SystemProgram.*` and `Token.create*Instruction`: opaque libraries. They are constructors of `Instructions.Instr` and `Instructions.CandyCall`.
- Instructions.RequiredSigners: the signer roles of the candy-machine program's own instructions come from its interface file, which is not part of this model. A program call contributes no required signers, so `SignedBy` covers only the extra instructions.
- Minting.MintNftRpc: `MintLayout.span` comes from spl-token, which is not part of this model. It is taken as the 82 bytes of an SPL mint.
- Keypair generation and base58 encoding: keys are inputs, and `Pubkey` holds the base58 text. The contents of `mint_data.json` are an input catalog.
- Initialize.AddConfigLinesCall: the `signers` option given to `program.instruction.addConfigLines` has no effect on an instruction builder, so it is not modelled.
- Layout.ConfigSpace: the trailing u32 and single byte are counted as the source writes them. What the on-chain program stores in them is not modelled.
- Utf8.FromUtf8Array: the input is modelled as bytes (`bv8`). The source takes `number[]`, and elements outside 0..255 are not modelled.
- Async sequencing: every script awaits each step in turn, so there is no concurrency to model.

The storage-size formula follows the code. The header is 247 bytes, because the code reserves five 34-byte creators, and the workflow allocates a fixed five lines whatever the catalog size.

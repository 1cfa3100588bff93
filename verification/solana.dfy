/**
 * The Solana vocabulary the distributor scripts are written in: public keys,
 * the well-known program and sysvar addresses, the constants of src/config.ts,
 * and program-derived addresses.
 *
 * `PublicKey.findProgramAddress` hashes its seeds with SHA-256 and searches for
 * a bump that puts the result off the ed25519 curve. Neither is modelled: the
 * derivation is a parameter `derive` of type `Deriver`, a total deterministic
 * function from seeds and a program id to an address and a bump.
 */
module Solana {

  /**
   * A public key, written as the base58 text of its 32 bytes. The model does
   * not constrain the text's length.
   */
  datatype Pubkey = Pubkey(base58: string)

  datatype Option<T> = None | Some(value: T)

  /** `SystemProgram.programId`. */
  const SystemProgramId := Pubkey("11111111111111111111111111111111")
  /** `SYSVAR_RENT_PUBKEY`. */
  const SysvarRent := Pubkey("SysvarRent111111111111111111111111111111111")
  /** `SYSVAR_CLOCK_PUBKEY`. */
  const SysvarClock := Pubkey("SysvarC1ock11111111111111111111111111111111")
  /** `TOKEN_PROGRAM_ID` of src/config.ts. */
  const TokenProgramId := Pubkey("TokenkegQfeZyiNwAJbNbGKPFXCWuBvf9Ss623VQ5DA")
  /** `SPL_ASSOCIATED_TOKEN_ACCOUNT_PROGRAM_ID` of src/config.ts. */
  const AssociatedTokenProgramId := Pubkey("ATokenGPvbdGVxr1b2hvZbsiqW5xWH25efTNsLJA8knL")
  /** `TOKEN_METADATA_PROGRAM_ID` of src/config.ts. */
  const TokenMetadataProgramId := Pubkey("metaqbxxUerdq28cj1RbAWkYQm3ybzjb6a8bt518x1s")
  /** `CANDY_MACHINE_PROGRAM_ID` of src/config.ts. */
  const CandyMachineProgramId := Pubkey("cndyAnrLdpjq1Ssp1z8xxDsB8dxe7u4HL5Nxi2K5WXZ")

  /** Lamports per SOL. */
  const Sol: nat := 1_000_000_000
  /** The seller fee in basis points (1% is 100). */
  const Royalty: nat := 500
  const Symbol: string := "GEN"
  /** The price of one item: five SOL. */
  const Price: nat := Sol * 5

  /**
   * The uuid the scripts cut from a fresh key: `toBase58().slice(0, 6)`, the
   * first six characters, or the whole text if it is shorter.
   */
  function Uuid(key: Pubkey): (uuid: string)
    ensures uuid <= key.base58
    ensures |uuid| == if |key.base58| < 6 then |key.base58| else 6
  {
    if |key.base58| <= 6 then key.base58 else key.base58[..6]
  }

  /** One seed of an address derivation: the UTF-8 bytes of a text or the 32 bytes of a key. */
  datatype Seed = Text(text: string) | Key(key: Pubkey)

  type Bump = b: int | 0 <= b < 256

  /** What `findProgramAddress` resolves to: the address and the bump that produced it. */
  datatype ProgramAddress = ProgramAddress(address: Pubkey, bump: Bump)

  /** `PublicKey.findProgramAddress(seeds, programId)`, left abstract. */
  type Deriver = (seq<Seed>, Pubkey) -> ProgramAddress

  /**
   * A derivation that never maps two different (seed list, program) inputs to
   * the same address, taken as a hypothesis. This idealises the real
   * function and is stronger than the collision resistance of SHA-256:
   * `findProgramAddress` hashes the seeds' bytes concatenated without length
   * prefixes, so [Text("ab"), Text("c")] and [Text("a"), Text("bc")] derive
   * the same address there, while this predicate rules that out.
   */
  ghost predicate CollisionFree(derive: Deriver)
  {
    forall s1, p1, s2, p2 | derive(s1, p1).address == derive(s2, p2).address :: s1 == s2 && p1 == p2
  }
}

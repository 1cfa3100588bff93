/**
 * The program-derived addresses of src/utils.ts: four seed lists, each handed
 * with a program id to the abstract derivation.
 */
module Addresses {
  import opened Solana

  /** `getTokenWallet`'s seeds: wallet, token program, mint. */
  function TokenWalletSeeds(wallet: Pubkey, mint: Pubkey): seq<Seed>
  {
    [Key(wallet), Key(TokenProgramId), Key(mint)]
  }

  /** `getMetadata`'s seeds: "metadata", metadata program, mint. */
  function MetadataSeeds(mint: Pubkey): seq<Seed>
  {
    [Text("metadata"), Key(TokenMetadataProgramId), Key(mint)]
  }

  /** `getMasterEdition`'s seeds: "metadata", metadata program, mint, "edition". */
  function MasterEditionSeeds(mint: Pubkey): seq<Seed>
  {
    [Text("metadata"), Key(TokenMetadataProgramId), Key(mint), Text("edition")]
  }

  /** `getCandyMachine`'s seeds: "candy_machine", config, uuid. */
  function CandyMachineSeeds(config: Pubkey, uuid: string): seq<Seed>
  {
    [Text("candy_machine"), Key(config), Text(uuid)]
  }

  /** The associated token account of `wallet` for `mint`, owned by the associated-token program. */
  function GetTokenWallet(derive: Deriver, wallet: Pubkey, mint: Pubkey): Pubkey
  {
    derive(TokenWalletSeeds(wallet, mint), AssociatedTokenProgramId).address
  }

  /** The metadata account of a mint, under the token-metadata program. */
  function GetMetadata(derive: Deriver, mint: Pubkey): Pubkey
  {
    derive(MetadataSeeds(mint), TokenMetadataProgramId).address
  }

  /** The master-edition account of a mint, under the token-metadata program. */
  function GetMasterEdition(derive: Deriver, mint: Pubkey): Pubkey
  {
    derive(MasterEditionSeeds(mint), TokenMetadataProgramId).address
  }

  /** The candy machine of a config and uuid: unlike the others, the address together with its bump. */
  function GetCandyMachine(derive: Deriver, config: Pubkey, uuid: string): ProgramAddress
  {
    derive(CandyMachineSeeds(config, uuid), CandyMachineProgramId)
  }

  /** The metadata seeds are a strict prefix of the master-edition seeds, which add "edition". */
  lemma MetadataSeedsPrefixEdition(mint: Pubkey)
    ensures MetadataSeeds(mint) < MasterEditionSeeds(mint)
    ensures MasterEditionSeeds(mint) == MetadataSeeds(mint) + [Text("edition")]
  {
  }

  /** Every seed list determines the inputs it was built from. */
  lemma SeedsDetermineInputs(w1: Pubkey, m1: Pubkey, w2: Pubkey, m2: Pubkey, u1: string, u2: string)
    ensures TokenWalletSeeds(w1, m1) == TokenWalletSeeds(w2, m2) <==> w1 == w2 && m1 == m2
    ensures MetadataSeeds(m1) == MetadataSeeds(m2) <==> m1 == m2
    ensures MasterEditionSeeds(m1) == MasterEditionSeeds(m2) <==> m1 == m2
    ensures CandyMachineSeeds(w1, u1) == CandyMachineSeeds(w2, u2) <==> w1 == w2 && u1 == u2
  {
    if TokenWalletSeeds(w1, m1) == TokenWalletSeeds(w2, m2) {
      assert TokenWalletSeeds(w1, m1)[0] == TokenWalletSeeds(w2, m2)[0];
      assert TokenWalletSeeds(w1, m1)[2] == TokenWalletSeeds(w2, m2)[2];
    }
    if MetadataSeeds(m1) == MetadataSeeds(m2) {
      assert MetadataSeeds(m1)[2] == MetadataSeeds(m2)[2];
    }
    if MasterEditionSeeds(m1) == MasterEditionSeeds(m2) {
      assert MasterEditionSeeds(m1)[2] == MasterEditionSeeds(m2)[2];
    }
    if CandyMachineSeeds(w1, u1) == CandyMachineSeeds(w2, u2) {
      assert CandyMachineSeeds(w1, u1)[1] == CandyMachineSeeds(w2, u2)[1];
      assert CandyMachineSeeds(w1, u1)[2] == CandyMachineSeeds(w2, u2)[2];
    }
  }

  /**
   * With a collision-free derivation the token account, the metadata, the
   * master edition and the candy machine are four different accounts, and the
   * metadata and master edition accounts each identify their mint.
   */
  lemma DerivedAccountsDistinct(derive: Deriver, wallet: Pubkey, mint: Pubkey, otherMint: Pubkey,
                                config: Pubkey, uuid: string)
    requires CollisionFree(derive)
    ensures GetTokenWallet(derive, wallet, mint) != GetMetadata(derive, mint)
    ensures GetTokenWallet(derive, wallet, mint) != GetMasterEdition(derive, mint)
    ensures GetTokenWallet(derive, wallet, mint) != GetCandyMachine(derive, config, uuid).address
    ensures GetMetadata(derive, mint) != GetMasterEdition(derive, mint)
    ensures GetMetadata(derive, mint) != GetCandyMachine(derive, config, uuid).address
    ensures GetMasterEdition(derive, mint) != GetCandyMachine(derive, config, uuid).address
    ensures GetMetadata(derive, mint) == GetMetadata(derive, otherMint) <==> mint == otherMint
    ensures GetMasterEdition(derive, mint) == GetMasterEdition(derive, otherMint) <==> mint == otherMint
  {
    var token, metadata := TokenWalletSeeds(wallet, mint), MetadataSeeds(mint);
    var edition, machine := MasterEditionSeeds(mint), CandyMachineSeeds(config, uuid);
    assert token[0] != metadata[0] && token[0] != edition[0] && token[0] != machine[0];
    assert |metadata| != |edition|;
    assert metadata[0] != machine[0] && edition[0] != machine[0];
    SeedsDetermineInputs(wallet, mint, wallet, otherMint, uuid, uuid);
  }
}

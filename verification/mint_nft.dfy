/**
 * `mintNFT` of src/mintNFT.ts: one transaction that pays the authority,
 * creates and initialises a fresh mint, opens the receiver's associated token
 * account, mints one token into it, and calls the candy machine's mintNft.
 *
 * The fresh mint keypair, the wallet, the derivation and the rent query are
 * parameters.
 */
module Minting {
  import opened Solana
  import opened Addresses
  import opened Instructions
  import Initialize

  /** `MintLayout.span`: the size of an SPL token mint account. */
  const MintSpan: nat := 82

  /** The fee added to the price so the authority can pay for minting: 0.01 SOL. */
  const MintFee: nat := 10_000_000

  /**
   * `mintNFT(config, authority, mintTo, candyMachineUuid)` with the fresh key
   * `mint`. The transaction carries every signature its instructions need
   * exactly when the receiver is one of the signers [mint, authority,
   * wallet]: the receiver funds the new mint account.
   */
  function MintNftRpc(wallet: Pubkey, config: Pubkey, authority: Pubkey, mintTo: Pubkey, machineUuid: string,
                      mint: Pubkey, derive: Deriver, rent: nat -> nat): (rpc: Rpc)
    ensures SignedBy(Transaction(rpc), rpc.signers) <==> mintTo in {mint, authority, wallet}
  {
    var token := GetTokenWallet(derive, mintTo, mint);
    var metadata := GetMetadata(derive, mint);
    var masterEdition := GetMasterEdition(derive, mint);
    var machine := GetCandyMachine(derive, config, machineUuid);
    var createMint := CreateAccount(mintTo, mint, MintSpan, rent(MintSpan), TokenProgramId);
    var createToken := CreateAta(CreateAssociatedTokenAccountInstruction(token, wallet, mintTo, mint));
    AtaSignedByPayer(token, wallet, mintTo, mint);
    assert RequiredSigners(createMint) == {mintTo, mint};
    assert RequiredSigners(createToken) == {wallet};
    var rpc := Rpc(
      MintNft(config, machine.address, authority, wallet, mint, metadata, masterEdition, authority, authority,
              TokenMetadataProgramId, TokenProgramId, SystemProgramId, SysvarRent, SysvarClock),
      [mint, authority, wallet],
      [ Transfer(wallet, authority, 5_000_000_000 + 10_000_000),
        createMint,
        InitMint(TokenProgramId, mint, 0, authority, Some(authority)),
        createToken,
        MintTo(TokenProgramId, mint, token, authority, [], 1) ]);
    assert Transaction(rpc)[1] == createMint && Transaction(rpc)[3] == createToken;
    rpc
  }

  /**
   * The script's entry call: the wallet mints to itself. It funds the new
   * mint, receives the token in its own associated token account, and every
   * needed signature is present.
   */
  function MintEntry(wallet: Pubkey, config: Pubkey, authority: Pubkey, machineUuid: string,
                     mint: Pubkey, derive: Deriver, rent: nat -> nat): (rpc: Rpc)
    ensures SignedBy(Transaction(rpc), rpc.signers)
    ensures var tx := Transaction(rpc);
      && |tx| == 6
      && tx[1].CreateAccount? && tx[1].from == wallet
      && tx[4].MintTo? && tx[4].destination == GetTokenWallet(derive, wallet, mint)
  {
    MintNftRpc(wallet, config, authority, wallet, machineUuid, mint, derive, rent)
  }

  /**
   * The transaction is the transfer to the authority of the price plus the
   * minting fee, createAccount of the mint (funded by the receiver, sized and
   * owned for the token program), initializeMint with no decimals and the
   * authority as mint and freeze authority, the receiver's ATA paid by the
   * wallet, mintTo of one token into that ATA under the token program with
   * the authority signing alone, and last the mintNft call.
   */
  lemma MintOrder(wallet: Pubkey, config: Pubkey, authority: Pubkey, mintTo: Pubkey, machineUuid: string,
                  mint: Pubkey, derive: Deriver, rent: nat -> nat)
    ensures var tx := Transaction(MintNftRpc(wallet, config, authority, mintTo, machineUuid, mint, derive, rent));
      && |tx| == 6
      && tx[0] == Transfer(wallet, authority, Price + MintFee)
      && tx[1] == CreateAccount(mintTo, mint, MintSpan, rent(MintSpan), TokenProgramId)
      && tx[2] == InitMint(TokenProgramId, mint, 0, authority, Some(authority))
      && tx[3] == CreateAta(CreateAssociatedTokenAccountInstruction(GetTokenWallet(derive, mintTo, mint), wallet, mintTo, mint))
      && tx[4] == MintTo(TokenProgramId, mint, GetTokenWallet(derive, mintTo, mint), authority, [], 1)
      && tx[5].ProgramCall? && tx[5].call.MintNft?
  {
  }

  /** The transfer carries five SOL and the 0.01 SOL fee: 5,010,000,000 lamports. */
  lemma PaymentCoversPriceAndFee()
    ensures 5_000_000_000 + 10_000_000 == Price + MintFee == 5_010_000_000
  {
  }

  /**
   * One derived address serves as the account the ATA instruction creates
   * (for the receiver and the mint, paid by the wallet) and as the account
   * the token is minted to.
   */
  lemma TokenAccountIsCreatedAndFilled(wallet: Pubkey, config: Pubkey, authority: Pubkey, mintTo: Pubkey,
                                       machineUuid: string, mint: Pubkey, derive: Deriver, rent: nat -> nat)
    ensures var tx := Transaction(MintNftRpc(wallet, config, authority, mintTo, machineUuid, mint, derive, rent));
      && tx[3].CreateAta? && tx[4].MintTo?
      && var keys := tx[3].ix.keys;
      && |keys| == 7
      && keys[1].pubkey == tx[4].destination == GetTokenWallet(derive, mintTo, mint)
      && keys[0].pubkey == wallet && keys[2].pubkey == mintTo && keys[3].pubkey == mint
  {
  }

  /**
   * The mintNft call names the config, the candy machine derived from the
   * config and the given uuid as it stands, the fresh mint, the wallet, the
   * authority as payer, mint authority and update authority, the fixed
   * programs and sysvars, and metadata and master edition accounts that
   * depend on the mint alone: any two calls for the same mint name the same
   * ones.
   */
  lemma MintAccountsFollowMint(wallet: Pubkey, config: Pubkey, authority: Pubkey, mintTo: Pubkey, machineUuid: string,
                               wallet': Pubkey, config': Pubkey, authority': Pubkey, mintTo': Pubkey, machineUuid': string,
                               mint: Pubkey, derive: Deriver, rent: nat -> nat)
    ensures var call := MintNftRpc(wallet, config, authority, mintTo, machineUuid, mint, derive, rent).call;
      var call' := MintNftRpc(wallet', config', authority', mintTo', machineUuid', mint, derive, rent).call;
      && call.MintNft? && call'.MintNft?
      && call.config == config && call.mint == mint && call.wallet == wallet
      && call.candyMachine == GetCandyMachine(derive, config, machineUuid).address
      && call.payer == call.mintAuthority == call.updateAuthority == authority
      && call.tokenMetadataProgram == TokenMetadataProgramId && call.tokenProgram == TokenProgramId
      && call.systemProgram == SystemProgramId && call.rent == SysvarRent && call.clock == SysvarClock
      && call.metadata == call'.metadata == GetMetadata(derive, mint)
      && call.masterEdition == call'.masterEdition == GetMasterEdition(derive, mint)
  {
  }

  /**
   * Minting against the config and candy-machine uuid that initialisation
   * used reaches the candy machine initialisation created.
   */
  lemma MintReachesInitializedMachine(wallet: Pubkey, config: Pubkey, authority: Pubkey, uuidKey: Pubkey,
                                      machineUuidKey: Pubkey, catalog: seq<ConfigLine>, mintTo: Pubkey,
                                      mint: Pubkey, derive: Deriver, rent: nat -> nat)
    ensures var init := Initialize.InitializeMachine(wallet, config, authority, uuidKey, machineUuidKey, catalog, derive, rent);
      var minting := MintNftRpc(wallet, config, authority, mintTo, Uuid(machineUuidKey), mint, derive, rent);
      && init.call.InitializeCandyMachine? && minting.call.MintNft?
      && minting.call.candyMachine == init.call.candyMachine
      && minting.call.config == init.call.config
  {
  }
}

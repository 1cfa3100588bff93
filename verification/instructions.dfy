/**
 * The instructions the two workflows put in a transaction, and which accounts
 * must sign each of them.
 *
 * The system program's and the token program's instructions are kept as
 * constructors with the arguments the scripts pass; their byte encodings are
 * not modelled. The associated-token-account instruction is the one the
 * scripts build by hand (src/utils.ts), so it is modelled down to its account
 * list. The candy-machine program's instructions are Anchor calls whose
 * payload and account roles are not modelled beyond the named arguments.
 */
module Instructions {
  import opened Solana

  /** One entry of an instruction's account list. */
  datatype AccountMeta = AccountMeta(pubkey: Pubkey, isSigner: bool, isWritable: bool)

  /** A raw instruction: accounts, target program and payload bytes. */
  datatype TransactionInstruction = TransactionInstruction(keys: seq<AccountMeta>, programId: Pubkey, data: seq<bv8>)

  /** One creator of a config, with the percentage of royalties it receives. */
  datatype Creator = Creator(address: Pubkey, verified: bool, share: nat)

  /** The settings `initializeConfig` writes into the config account header. */
  datatype ConfigData = ConfigData(
    uuid: string,
    maxNumberOfLines: nat,
    symbol: string,
    sellerFeeBasisPoints: nat,
    isMutable: bool,
    maxSupply: nat,
    retainAuthority: bool,
    creators: seq<Creator>)

  /** One entry of the catalog, as read from the mint data file (name and uri). */
  datatype ConfigLine = ConfigLine(name: string, uri: string)

  /** The settings `initializeCandyMachine` writes; `goLiveDate` is a Unix time or absent. */
  datatype CandyMachineData = CandyMachineData(uuid: string, price: nat, itemsAvailable: nat, goLiveDate: Option<int>)

  /** The candy-machine program's instructions, with the accounts the scripts name. */
  datatype CandyCall =
    | InitializeConfig(data: ConfigData, config: Pubkey, authority: Pubkey, payer: Pubkey, rent: Pubkey)
    | AddConfigLines(index: nat, lines: seq<ConfigLine>, config: Pubkey, authority: Pubkey)
    | InitializeCandyMachine(bump: Bump, machineData: CandyMachineData, candyMachine: Pubkey, wallet: Pubkey,
                             config: Pubkey, authority: Pubkey, payer: Pubkey, systemProgram: Pubkey, rent: Pubkey)
    | MintNft(config: Pubkey, candyMachine: Pubkey, payer: Pubkey, wallet: Pubkey, mint: Pubkey,
              metadata: Pubkey, masterEdition: Pubkey, mintAuthority: Pubkey, updateAuthority: Pubkey,
              tokenMetadataProgram: Pubkey, tokenProgram: Pubkey, systemProgram: Pubkey, rent: Pubkey, clock: Pubkey)

  /** One instruction of a transaction. */
  datatype Instr =
      /** `SystemProgram.createAccount`: fund and allocate `newAccount`, owned by `owner`. */
    | CreateAccount(from: Pubkey, newAccount: Pubkey, space: nat, lamports: nat, owner: Pubkey)
      /** `SystemProgram.transfer`. */
    | Transfer(from: Pubkey, to: Pubkey, lamports: nat)
      /** `Token.createInitMintInstruction`. */
    | InitMint(tokenProgram: Pubkey, mint: Pubkey, decimals: nat, mintAuthority: Pubkey, freezeAuthority: Option<Pubkey>)
      /** The hand-built `createAssociatedTokenAccountInstruction`. */
    | CreateAta(ix: TransactionInstruction)
      /** `Token.createMintToInstruction`; with no multisig signers the authority signs. */
    | MintTo(tokenProgram: Pubkey, mint: Pubkey, destination: Pubkey, authority: Pubkey, multiSigners: seq<Pubkey>, amount: nat)
      /** A candy-machine program instruction. */
    | ProgramCall(call: CandyCall)

  /**
   * `program.rpc.<call>(..., { signers, instructions })`: Anchor sends one
   * transaction holding the extra instructions followed by the call itself,
   * signed by the listed keypairs.
   */
  datatype Rpc = Rpc(call: CandyCall, signers: seq<Pubkey>, instructions: seq<Instr>)

  function Transaction(rpc: Rpc): (tx: seq<Instr>)
    ensures |tx| == |rpc.instructions| + 1
    ensures tx[..|rpc.instructions|] == rpc.instructions
    ensures tx[|rpc.instructions|] == ProgramCall(rpc.call)
  {
    rpc.instructions + [ProgramCall(rpc.call)]
  }

  /**
   * `createAssociatedTokenAccountInstruction`: payer, the new account, its
   * owner wallet, the mint, then the system program, the token program and
   * the rent sysvar; only the payer signs, only the payer and the new account
   * are written; no payload.
   */
  function CreateAssociatedTokenAccountInstruction(associatedTokenAddress: Pubkey, payer: Pubkey,
                                                   walletAddress: Pubkey, splTokenMintAddress: Pubkey): (ix: TransactionInstruction)
    ensures |ix.keys| == 7
    ensures && ix.keys[0].pubkey == payer && ix.keys[1].pubkey == associatedTokenAddress
            && ix.keys[2].pubkey == walletAddress && ix.keys[3].pubkey == splTokenMintAddress
            && ix.keys[4].pubkey == SystemProgramId && ix.keys[5].pubkey == TokenProgramId
            && ix.keys[6].pubkey == SysvarRent
    ensures forall k | 0 <= k < |ix.keys| :: ix.keys[k].isSigner <==> k == 0
    ensures forall k | 0 <= k < |ix.keys| :: ix.keys[k].isWritable <==> k <= 1
    ensures ix.programId == AssociatedTokenProgramId && ix.data == []
  {
    var keys := [
      AccountMeta(payer, true, true),
      AccountMeta(associatedTokenAddress, false, true),
      AccountMeta(walletAddress, false, false),
      AccountMeta(splTokenMintAddress, false, false),
      AccountMeta(SystemProgramId, false, false),
      AccountMeta(TokenProgramId, false, false),
      AccountMeta(SysvarRent, false, false)
    ];
    TransactionInstruction(keys, AssociatedTokenProgramId, [])
  }

  /** The keys of an account list flagged as signers. */
  function SignerKeys(keys: seq<AccountMeta>): (signers: set<Pubkey>)
    ensures forall k | 0 <= k < |keys| && keys[k].isSigner :: keys[k].pubkey in signers
    ensures forall p | p in signers :: exists k | 0 <= k < |keys| :: keys[k].isSigner && keys[k].pubkey == p
  {
    if keys == [] then {}
    else
      var rest := SignerKeys(keys[1..]);
      assert forall k | 1 <= k < |keys| :: keys[k] == keys[1..][k - 1];
      if keys[0].isSigner then {keys[0].pubkey} + rest else rest
  }

  /** The ATA instruction is signed by its payer alone. */
  lemma AtaSignedByPayer(associatedTokenAddress: Pubkey, payer: Pubkey, walletAddress: Pubkey, splTokenMintAddress: Pubkey)
    ensures SignerKeys(CreateAssociatedTokenAccountInstruction(associatedTokenAddress, payer, walletAddress,
                                                                splTokenMintAddress).keys) == {payer}
  {
    var keys := CreateAssociatedTokenAccountInstruction(associatedTokenAddress, payer, walletAddress, splTokenMintAddress).keys;
    assert keys[0].isSigner && keys[0].pubkey == payer;
  }

  /**
   * The accounts whose signatures an instruction needs: the funder and the
   * new account of createAccount, the sender of a transfer, the flagged
   * signers of a raw instruction and the mint authority (or its multisig
   * signers) of mintTo. InitializeMint needs none. The candy-machine calls'
   * own signer roles come from the program's interface, which is not
   * modelled, so they contribute none here.
   */
  function RequiredSigners(instr: Instr): set<Pubkey>
  {
    match instr
    case CreateAccount(from, newAccount, _, _, _) => {from, newAccount}
    case Transfer(from, _, _) => {from}
    case InitMint(_, _, _, _, _) => {}
    case CreateAta(ix) => SignerKeys(ix.keys)
    case MintTo(_, _, _, authority, multiSigners, _) =>
      if multiSigners == [] then {authority} else set k | k in multiSigners
    case ProgramCall(_) => {}
  }

  /** Every signature any instruction of `tx` needs is in `signers`. */
  predicate SignedBy(tx: seq<Instr>, signers: seq<Pubkey>)
  {
    forall k | 0 <= k < |tx| :: RequiredSigners(tx[k]) <= set s | s in signers
  }
}

/**
 * A Solana token program: the instruction decoder and the instruction
 * processor with its account checks.
 *
 * Instruction data is a tag byte followed by either a decimals byte
 * (tag 0, InitializeMint) or an 8-byte little-endian u64 amount (tag 1,
 * MintTokens; tag 2, TransferTokens). Accounts are abstract records; the
 * token library's own operations (creating a mint, minting, transferring,
 * serialising, the rent check) are inputs of the model (`Runtime`).
 */
module TokenProgram {
  import opened Wrappers

  type u8 = x: int | 0 <= x < 256

  const U64Limit: int := 0x1_0000_0000_0000_0000

  type u64 = x: int | 0 <= x < U64Limit

  type Pubkey = nat

  datatype TokenInstruction =
    | InitializeMint(decimals: u8)
    | MintTokens(amount: u64)
    | TransferTokens(amount: u64)

  datatype ProgramError =
    | InvalidInstructionData
    | NotEnoughAccountKeys
    | MissingRequiredSignature
    | InvalidMintAuthority
    | MintMismatch
    | InvalidAccountOwner
    | InvalidAccountData
    | AccountNotRentExempt
    | InvalidArgument
    | LibraryError(code: nat)   // an error raised inside the token library

  /** What decoding yields: an instruction, an error, or a panic (the index
      past the end of the input). */
  datatype Decoded = Parsed(ix: TokenInstruction) | Refused(err: ProgramError) | OutOfBounds

  // ---------------------------------------------------------------- bytes

  function Pow256(n: nat): (p: nat)
    ensures p >= 1
  {
    if n == 0 then 1 else 256 * Pow256(n - 1)
  }

  lemma Pow256Eight()
    ensures Pow256(8) == U64Limit
  {
    calc {
      Pow256(8);
      256 * 256 * 256 * 256 * 256 * 256 * 256 * 256 * Pow256(0);
      U64Limit;
    }
  }

  /** The number the bytes denote, least significant byte first. */
  function FromLe(bytes: seq<u8>): (v: nat)
    ensures v < Pow256(|bytes|)
    decreases |bytes|
  {
    if |bytes| == 0 then 0
    else
      var rest := FromLe(bytes[1..]);
      assert bytes[0] + 256 * rest <= 255 + 256 * (Pow256(|bytes| - 1) - 1);
      bytes[0] + 256 * rest
  }

  /** The `n` bytes denoting `v`, least significant first; they decode to `v`. */
  function ToLe(v: nat, n: nat): (bytes: seq<u8>)
    requires v < Pow256(n)
    ensures |bytes| == n
    ensures FromLe(bytes) == v
    decreases n
  {
    if n == 0 then []
    else
      var tail := ToLe(v / 256, n - 1);
      assert ([v % 256] + tail)[1..] == tail;
      [v % 256] + tail
  }

  /** Encoding the value of a byte string gives back the byte string. */
  lemma {:induction false} ToLeFromLe(bytes: seq<u8>)
    ensures ToLe(FromLe(bytes), |bytes|) == bytes
    decreases |bytes|
  {
    if |bytes| > 0 {
      var rest := FromLe(bytes[1..]);
      ToLeFromLe(bytes[1..]);
      assert (bytes[0] + 256 * rest) / 256 == rest;
      assert (bytes[0] + 256 * rest) % 256 == bytes[0];
    }
  }

  /** The u64 that eight little-endian bytes denote. */
  function U64FromLe(bytes: seq<u8>): (a: u64)
    requires |bytes| == 8
    ensures a == FromLe(bytes)
  {
    Pow256Eight();
    FromLe(bytes)
  }

  /** The eight little-endian bytes of a u64; they denote it. */
  function U64ToLe(a: u64): (bytes: seq<u8>)
    ensures |bytes| == 8 && U64FromLe(bytes) == a
  {
    Pow256Eight();
    ToLe(a, 8)
  }

  // ---------------------------------------------------------------- decode

  /** Decodes instruction data. Empty input and unknown tags are refused; a
      tag 0 with nothing after it indexes past the end; tags 1 and 2 need
      eight more bytes. Bytes after those read are ignored. */
  function Unpack(input: seq<u8>): (r: Decoded)
    ensures r.OutOfBounds? <==> input == [0]
    ensures r.Refused? <==> |input| == 0 || input[0] >= 3 || (1 <= input[0] <= 2 && |input| < 9)
    ensures r.Refused? ==> r.err == InvalidInstructionData
    ensures r.Parsed? ==> (r.ix.InitializeMint? <==> input[0] == 0) && (r.ix.MintTokens? <==> input[0] == 1)
  {
    if |input| == 0 then Refused(InvalidInstructionData)
    else
      var tag := input[0];
      var rest := input[1..];
      if tag == 0 then
        if |rest| == 0 then OutOfBounds else Parsed(InitializeMint(rest[0]))
      else if tag == 1 || tag == 2 then
        if |rest| < 8 then Refused(InvalidInstructionData)
        else
          var amount := U64FromLe(rest[..8]);
          if tag == 1 then Parsed(MintTokens(amount)) else Parsed(TransferTokens(amount))
      else Refused(InvalidInstructionData)
  }

  /** The shortest instruction data that decodes to `ix`. */
  function Pack(ix: TokenInstruction): (data: seq<u8>)
    ensures |data| == (if ix.InitializeMint? then 2 else 9)
  {
    match ix
    case InitializeMint(d) => [0, d]
    case MintTokens(a) => [1] + U64ToLe(a)
    case TransferTokens(a) => [2] + U64ToLe(a)
  }

  /** Exactly which inputs decode, which are refused and which panic. */
  lemma UnpackOutcomes(input: seq<u8>)
    ensures Unpack(input).OutOfBounds? <==> input == [0]
    ensures Unpack(input).Refused? <==>
      |input| == 0 || input[0] >= 3 || (1 <= input[0] <= 2 && |input| < 9)
    ensures Unpack(input).Refused? ==> Unpack(input).err == InvalidInstructionData
  {
  }

  /** The amount a tag 1 or tag 2 instruction carries: bytes 1 to 8. */
  lemma UnpackAmount(input: seq<u8>)
    requires |input| >= 9 && (input[0] == 1 || input[0] == 2)
    ensures input[0] == 1 ==> Unpack(input) == Parsed(MintTokens(U64FromLe(input[1..9])))
    ensures input[0] == 2 ==> Unpack(input) == Parsed(TransferTokens(U64FromLe(input[1..9])))
  {
    assert input[1..][..8] == input[1..9];
  }

  /** Decoding undoes encoding, whatever follows the encoded instruction. */
  lemma UnpackPack(ix: TokenInstruction, suffix: seq<u8>)
    ensures Unpack(Pack(ix) + suffix) == Parsed(ix)
  {
    var data := Pack(ix) + suffix;
    match ix
    case InitializeMint(d) =>
      assert data[0] == 0 && data[1..][0] == d;
    case MintTokens(a) =>
      var bytes := U64ToLe(a);
      assert data == [1] + bytes + suffix;
      assert data[1..9] == bytes;
      UnpackAmount(data);
    case TransferTokens(a) =>
      var bytes := U64ToLe(a);
      assert data == [2] + bytes + suffix;
      assert data[1..9] == bytes;
      UnpackAmount(data);
  }

  /** Eight bytes read as a u64 and written back are the same bytes. */
  lemma RepackAmount(bytes: seq<u8>)
    requires |bytes| == 8
    ensures U64ToLe(U64FromLe(bytes)) == bytes
  {
    ToLeFromLe(bytes);
  }

  /** A tag 1 or 2 instruction starts with the encoding of its amount. */
  lemma AmountIsPrefix(input: seq<u8>)
    requires |input| >= 9 && (input[0] == 1 || input[0] == 2)
    ensures Unpack(input).Parsed? && Pack(Unpack(input).ix) == input[..9]
  {
    UnpackAmount(input);
    var bytes := input[1..9];
    RepackAmount(bytes);
    assert [input[0]] + bytes == input[..9];
    if input[0] == 1 {
      assert Pack(MintTokens(U64FromLe(bytes))) == [1] + bytes;
    } else {
      assert Pack(TransferTokens(U64FromLe(bytes))) == [2] + bytes;
    }
  }

  /** Whatever decodes starts with the encoding of what it decodes to. */
  lemma UnpackIsPrefix(input: seq<u8>)
    requires Unpack(input).Parsed?
    ensures Pack(Unpack(input).ix) <= input
  {
    if input[0] == 0 {
      assert Pack(Unpack(input).ix) == input[..2];
    } else {
      AmountIsPrefix(input);
    }
  }

  /** The mint and transfer round trip: tag 1 or 2, then the amount. */
  lemma AmountRoundTrip(a: u64, suffix: seq<u8>)
    ensures Unpack([1] + U64ToLe(a) + suffix) == Parsed(MintTokens(a))
    ensures Unpack([2] + U64ToLe(a) + suffix) == Parsed(TransferTokens(a))
  {
    UnpackPack(MintTokens(a), suffix);
    UnpackPack(TransferTokens(a), suffix);
  }

  // ---------------------------------------------------------------- accounts

  datatype Mint = Mint(mintAuthority: Option<Pubkey>, supply: nat, decimals: u8)

  datatype TokenAccount = TokenAccount(mint: Pubkey, owner: Pubkey, amount: nat)

  /** What an account's data holds, as the library would read it. */
  datatype AccountData = MintData(m: Mint) | TokenData(t: TokenAccount) | RentSysvar | OtherData

  datatype AccountInfo = AccountInfo(key: Pubkey, isSigner: bool, data: AccountData)

  /** The results of the library operations this program calls. */
  datatype Runtime = Runtime(
    newMint: Option<ProgramError>,    // error from creating the mint record, if any
    writeFirst: Option<ProgramError>, // error from writing the first account's data back, if any
    writeSecond: Option<ProgramError>,// error from writing the second account's data back, if any
    rentExempt: bool,                 // whether the new mint account is rent-exempt
    mintTo: Option<ProgramError>,     // error from the mint operation, if any
    transfer: Option<ProgramError>)   // error from the transfer operation, if any

  /** The state change an instruction requests of the library. */
  datatype Effect =
    | MintInitialized(mint: Pubkey, decimals: u8, authority: Pubkey)
    | Minted(mint: Pubkey, destination: Pubkey, amount: u64)
    | Transferred(source: Pubkey, destination: Pubkey, amount: u64)

  datatype Outcome = Done(effect: Effect) | Failed(err: ProgramError) | Panicked

  /** Reads an account's data as a mint; anything else is invalid account data. */
  function LoadMint(a: AccountInfo): (r: Result<Mint, ProgramError>)
    ensures r.Success? <==> a.data.MintData?
    ensures r.Success? ==> r.value == a.data.m
    ensures r.Failure? ==> r.error == InvalidAccountData
  {
    if a.data.MintData? then Success(a.data.m) else Failure(InvalidAccountData)
  }

  /** Reads an account's data as a token account; anything else is invalid account data. */
  function LoadToken(a: AccountInfo): (r: Result<TokenAccount, ProgramError>)
    ensures r.Success? <==> a.data.TokenData?
    ensures r.Success? ==> r.value == a.data.t
    ensures r.Failure? ==> r.error == InvalidAccountData
  {
    if a.data.TokenData? then Success(a.data.t) else Failure(InvalidAccountData)
  }

  /** Creates a mint whose authority is the second account. */
  function InitializeMintIx(accounts: seq<AccountInfo>, decimals: u8, rt: Runtime): (r: Outcome)
    ensures r.Done? <==>
      |accounts| >= 3 && accounts[2].data.RentSysvar? && accounts[1].isSigner
      && rt.newMint.None? && rt.writeFirst.None? && rt.rentExempt
    ensures r.Done? ==> r.effect == MintInitialized(accounts[0].key, decimals, accounts[1].key)
    ensures |accounts| >= 3 && accounts[2].data.RentSysvar? && !accounts[1].isSigner ==>
      r == Failed(MissingRequiredSignature)
  {
    if |accounts| < 3 then Failed(NotEnoughAccountKeys)
    else
      var mintAccount := accounts[0];
      var authority := accounts[1];
      if !accounts[2].data.RentSysvar? then Failed(InvalidArgument)
      else if !authority.isSigner then Failed(MissingRequiredSignature)
      else if rt.newMint.Some? then Failed(rt.newMint.value)
      else if rt.writeFirst.Some? then Failed(rt.writeFirst.value)
      else if !rt.rentExempt then Failed(AccountNotRentExempt)
      else Done(MintInitialized(mintAccount.key, decimals, authority.key))
  }

  /** Mints `amount` into the destination. Checks, in order: enough accounts,
      the authority's signature, the mint's authority, the destination's mint. */
  function MintTokensIx(accounts: seq<AccountInfo>, amount: u64, rt: Runtime): (r: Outcome)
    ensures r.Done? <==>
      && |accounts| >= 3
      && accounts[2].isSigner
      && LoadMint(accounts[0]).Success?
      && LoadMint(accounts[0]).value.mintAuthority == Some(accounts[2].key)
      && LoadToken(accounts[1]).Success?
      && LoadToken(accounts[1]).value.mint == accounts[0].key
      && rt.mintTo.None? && rt.writeFirst.None? && rt.writeSecond.None?
    ensures r.Done? ==> r.effect == Minted(accounts[0].key, accounts[1].key, amount)
    // the signature is checked before any account data is read
    ensures |accounts| >= 3 && !accounts[2].isSigner ==> r == Failed(MissingRequiredSignature)
    // the authority is checked before the destination is read
    ensures (|accounts| >= 3 && accounts[2].isSigner && LoadMint(accounts[0]).Success?
             && LoadMint(accounts[0]).value.mintAuthority != Some(accounts[2].key)) ==> r == Failed(InvalidMintAuthority)
    // a mint mismatch is reported only after the authority check passed
    ensures r == Failed(MintMismatch) ==>
      && |accounts| >= 3 && accounts[2].isSigner && LoadMint(accounts[0]).Success?
      && LoadMint(accounts[0]).value.mintAuthority == Some(accounts[2].key)
  {
    if |accounts| < 3 then Failed(NotEnoughAccountKeys)
    else
      var mintAccount := accounts[0];
      var destinationAccount := accounts[1];
      var authority := accounts[2];
      if !authority.isSigner then Failed(MissingRequiredSignature)
      else if LoadMint(mintAccount).Failure? then Failed(LoadMint(mintAccount).error)
      else
        var mint := LoadMint(mintAccount).value;
        if mint.mintAuthority.None? then Failed(InvalidMintAuthority)
        else if authority.key != mint.mintAuthority.value then Failed(InvalidMintAuthority)
        else if LoadToken(destinationAccount).Failure? then Failed(LoadToken(destinationAccount).error)
        else if LoadToken(destinationAccount).value.mint != mintAccount.key then Failed(MintMismatch)
        else if rt.mintTo.Some? then Failed(rt.mintTo.value)
        else if rt.writeFirst.Some? then Failed(rt.writeFirst.value)
        else if rt.writeSecond.Some? then Failed(rt.writeSecond.value)
        else Done(Minted(mintAccount.key, destinationAccount.key, amount))
  }

  /** Moves `amount` from source to destination. Checks, in order: enough
      accounts, the owner's signature, same mint, the source's owner. */
  function TransferTokensIx(accounts: seq<AccountInfo>, amount: u64, rt: Runtime): (r: Outcome)
    ensures r.Done? <==>
      && |accounts| >= 3
      && accounts[2].isSigner
      && LoadToken(accounts[0]).Success? && LoadToken(accounts[1]).Success?
      && LoadToken(accounts[0]).value.mint == LoadToken(accounts[1]).value.mint
      && LoadToken(accounts[0]).value.owner == accounts[2].key
      && rt.transfer.None? && rt.writeFirst.None? && rt.writeSecond.None?
    ensures r.Done? ==> r.effect == Transferred(accounts[0].key, accounts[1].key, amount)
    // the signature is checked before any account data is read
    ensures |accounts| >= 3 && !accounts[2].isSigner ==> r == Failed(MissingRequiredSignature)
    // the mints are compared before the owner
    ensures (|accounts| >= 3 && accounts[2].isSigner
             && LoadToken(accounts[0]).Success? && LoadToken(accounts[1]).Success?
             && LoadToken(accounts[0]).value.mint != LoadToken(accounts[1]).value.mint) ==> r == Failed(MintMismatch)
    // a wrong owner is reported only after the mint check passed
    ensures r == Failed(InvalidAccountOwner) ==>
      && |accounts| >= 3 && accounts[2].isSigner
      && LoadToken(accounts[0]).Success? && LoadToken(accounts[1]).Success?
      && LoadToken(accounts[0]).value.mint == LoadToken(accounts[1]).value.mint
  {
    if |accounts| < 3 then Failed(NotEnoughAccountKeys)
    else
      var sourceAccount := accounts[0];
      var destinationAccount := accounts[1];
      var owner := accounts[2];
      if !owner.isSigner then Failed(MissingRequiredSignature)
      else if LoadToken(sourceAccount).Failure? then Failed(LoadToken(sourceAccount).error)
      else if LoadToken(destinationAccount).Failure? then Failed(LoadToken(destinationAccount).error)
      else
        var source := LoadToken(sourceAccount).value;
        var destination := LoadToken(destinationAccount).value;
        if source.mint != destination.mint then Failed(MintMismatch)
        else if source.owner != owner.key then Failed(InvalidAccountOwner)
        else if rt.transfer.Some? then Failed(rt.transfer.value)
        else if rt.writeFirst.Some? then Failed(rt.writeFirst.value)
        else if rt.writeSecond.Some? then Failed(rt.writeSecond.value)
        else Done(Transferred(sourceAccount.key, destinationAccount.key, amount))
  }

  /** The program entry point: decode, then run the one handler for the
      decoded instruction. */
  function ProcessInstruction(accounts: seq<AccountInfo>, data: seq<u8>, rt: Runtime): (r: Outcome)
    // a decoding failure is returned before any account is looked at
    ensures Unpack(data).Refused? ==> r == Failed(Unpack(data).err)
    ensures Unpack(data).OutOfBounds? ==> r == Panicked
    // each instruction runs its own handler and can only produce its own effect
    ensures Unpack(data).Parsed? && Unpack(data).ix.InitializeMint? ==>
      r == InitializeMintIx(accounts, Unpack(data).ix.decimals, rt)
    ensures Unpack(data).Parsed? && Unpack(data).ix.MintTokens? ==>
      r == MintTokensIx(accounts, Unpack(data).ix.amount, rt)
    ensures Unpack(data).Parsed? && Unpack(data).ix.TransferTokens? ==>
      r == TransferTokensIx(accounts, Unpack(data).ix.amount, rt)
  {
    match Unpack(data)
    case Refused(e) => Failed(e)
    case OutOfBounds => Panicked
    case Parsed(ix) =>
      match ix
      case InitializeMint(d) => InitializeMintIx(accounts, d, rt)
      case MintTokens(a) => MintTokensIx(accounts, a, rt)
      case TransferTokens(a) => TransferTokensIx(accounts, a, rt)
  }

  /** A successful run's effect matches the instruction's variant and amount. */
  lemma EffectMatchesInstruction(accounts: seq<AccountInfo>, data: seq<u8>, rt: Runtime)
    requires ProcessInstruction(accounts, data, rt).Done?
    ensures Unpack(data).Parsed?
    ensures
      var e := ProcessInstruction(accounts, data, rt).effect;
      match Unpack(data).ix
      case InitializeMint(d) => e.MintInitialized? && e.decimals == d
      case MintTokens(a) => e.Minted? && e.amount == a
      case TransferTokens(a) => e.Transferred? && e.amount == a
  {
  }
}

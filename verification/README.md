# Elements+ wallet: a verified model

This project models the parts of the Elements+ wallet whose mistakes cost money, and proves what they are for.
Hashes and signatures are parameters; everything else follows the code branch by branch, with its constants and error
conditions. Code that updates state in place is modelled by classes and loops proved against specification functions;
what the code promises is then proved about those functions.

- **Transactions** (`Coins`, `Funding`, `FundingTheorems`, `FundingUnique`, `Pset`, `Review`, `Operations`,
  `ReviewTheorems`, `LedgerTheorems`, `Drafts`, `Builder`, `BuilderTheorems`, `TxSize`). The coin selector is exact,
  pays the requested rate for its final shape, and picks the fewest coins, with one exception that is exhibited; its
  result is unique and does not depend on the order of the candidates. The review accepts exactly the transactions
  described by `Accepts` and tells the truth about every asset of any transaction, built here or not. The request
  check accepts exactly the reviews that express the request. The six `prepare` operations succeed exactly when their
  request can be carried out, and what they return passes both checks, so a transfer costs the amount and the fee and
  pays nobody else. What passed is also stated on the ledger: which scripts and keys every input spends and every
  output pays, and what the wallet's scripts lose.
- **QR codes** (`Xor`, `Gf256`, `ReedSolomon`, `QrTables`, `QrCodewords`, `QrBlocks`, `QrMatrix`, `QrFormat`,
  `QrEncode`). A decoder written independently of the encoder reads the payload back from the finished matrix, for
  every payload that fits; every block of the symbol is a Reed-Solomon codeword.
- **Addresses** (`Bech32`, `AddressCodec`, `Addresses`). The checksum is linear, its steps are injective, every single
  substitution is detected at any length; both spellings of an accepted address stand for the same address.
- **Covenant commitments** (`Commitment`, `CommitmentBinding`, `CommitmentLayout`, `Watchtower`). Two transactions
  share a commitment exactly when they differ in witnesses alone; the bit-level scan finds a signature exactly when
  some window holds one.
- **Two protocols with a durable log** (`Journal`, `JournalSafety`; `SpendPolicy`, `SigningGate`, `GateTheorems`,
  `LimitSafety`). Both are also step machines with crashes, power cuts, failed appends, restarts, concurrent calls and
  clock steps; for both, safety is proved under an exact condition.
- **Approvals** (`Controller`, `ApprovalSafety`). Over every interleaving of planning, signing and broadcasting with
  locking, idle expiry, rejection and the clock: one approval, one signature, in its own session.
- **Smaller algorithms** (`GapScan`, `Activity`, `Calendar`, `Text`, `Amounts`).

## Where code and documentation disagree

The code is followed. Three statements are not true of it as they stand, and each is replaced by its exact condition:

- services/preconfer-signer/README.md:7 says a signed decision is fsynced before publication. A line whose sync failed
  can be read back by the next `open`, which does not sync it, and is then released; a power cut may still erase it.
  `JournalSafety.UnsyncedLineEquivocates` is such a run, and `JournalSafety.SafeIff` says when none exists: when
  opening syncs what it accepts, or accepted bytes survive every power cut.
- rust/wallet-cli/README.md:137 calls the limits hard caps. Two calls at once both read the log before either
  writes, and a clock stepping back between evaluation and record stamps the spend into another window.
  `LimitSafety.CapsIff` shows that what the gate returns keeps the caps exactly when calls exclude each other and the
  clock does not step back inside a call; between calls it may step either way, and no crash, failed append, power cut
  or restart breaks them. The per-transaction limits need neither condition (`LimitSafety.ReturnsKeepPerTx`).
- rust/wallet-core/src/build.rs:258-259 says that largest-first uses few inputs. For policy coins it is not always the
  fewest: a large confidential coin adds the cost of a blinded output and so can need company where a smaller explicit
  coin would do alone (`FundingTheorems.LargestFirstCanSpendMore`). `FundingTheorems.FewerWouldDoIff` says exactly when
  fewer coins would do: when, for some count, that many of the largest explicit coins cover the need and their own fee,
  while no that many or fewer of the largest coins do. The condition can be decided before the policy loop begins.

## Model

| member | source | states |
|---|---|---|
| Gf256.GfMultiply | src/shared/qr.ts:86-93 | the shift-and-xor loop computes the product in GF(2)[x] modulo 0x11d, as defined by repeated doubling |
| Gf256.MulCommutes | src/shared/qr.ts:86-93 | the product is commutative on all bytes |
| Gf256.MulAssociates | src/shared/qr.ts:86-93 | the product is associative on all bytes |
| Gf256.MulDistributes | src/shared/qr.ts:86-93 | the product distributes over exclusive or on both sides |
| Gf256.MulByX | src/shared/qr.ts:86-93 | multiplying by x shifts, and takes x^8 for x^4 + x^3 + x^2 + 1 |
| ReedSolomon.MultiplyByFactor | src/shared/qr.ts:100-103 | one round of the inner loop multiplies the polynomial held in the array, leading 1 implied, by (x - root) |
| ReedSolomon.ReedSolomonDivisor | src/shared/qr.ts:95-107 | for every degree the divisor, with its leading 1, is the product of (x - alpha^i) for i below the degree |
| ReedSolomon.ReedSolomonRemainder | src/shared/qr.ts:109-119 | data of any length followed by the remainder is a multiple of the divisor, the quotient being exhibited |
| ReedSolomon.GeneratorRoots | src/shared/qr.ts:95-107 | the generator vanishes at alpha^0 to alpha^(n-1) |
| ReedSolomon.CodewordVanishes | src/shared/qr.ts:95-119 | every multiple of the generator, hence every block with its remainder, vanishes at all those powers |
| QrTables.TablesSound | src/shared/qr.ts:33-84 | for all 160 versions and levels: the blocks have data, the header and length field fit, the size formulas give what the encoder needs |
| QrTables.RawModulesLeft | src/shared/qr.ts:59-67 | the formula for the data modules is the square less finders, timing lines, format modules, alignment patterns with their overlap, and version fields |
| QrTables.CapacityGrows | src/shared/qr.ts:69-73 | at every level a later version has strictly more room for data |
| QrCodewords.ByteModeCodewords | src/shared/qr.ts:345-365 | succeeds exactly when header and payload fit; the codewords' bits are mode, length, payload, terminator, byte padding and alternating pads, filling the capacity exactly |
| QrCodewords.ByteModeRoundTrip | src/shared/qr.ts:345-365 | parsing mode and length of codewords with that bit stream returns exactly the input bytes |
| QrCodewords.ByteModeDigits | src/shared/qr.ts:345-365 | in hexadecimal the codewords are a 4, the length in two or four digits, the digits of the payload, a 0, and 0xEC and 0x11 in turn to the end |
| QrBlocks.EncodeBlock | src/shared/qr.ts:127-133 | one block carries its own slice of the data, one codeword longer in long blocks, and its check symbols complete a codeword |
| QrBlocks.LayoutSound | src/shared/qr.ts:121-141 | short and long blocks together hold exactly the data codewords |
| QrBlocks.AddEccAndInterleave | src/shared/qr.ts:121-141 | the output has the symbol's size, de-interleaving it returns the data, and each block with its check symbols is a Reed-Solomon codeword, so every syndrome is zero |
| QrBlocks.AllTransmitted | src/shared/qr.ts:136-140 | skipping the missing cell of short blocks transmits every raw codeword, no more and no fewer |
| QrBlocks.InterleavedAt | src/shared/qr.ts:121-141 | where every codeword of every block is transmitted, in closed form |
| QrMatrix.ZigzagVisitsOnce | src/shared/qr.ts:240-256 | the zigzag visits every cell outside column 6 exactly once and no other cell |
| QrMatrix.ZigzagAt | src/shared/qr.ts:240-256 | for every symbol size the cell at every place of the path: pairs of columns from the lower right corner, up and down in turn, right column first, over column 6 |
| QrMatrix.ReadsWritten | src/shared/qr.ts:240-256 | along any path without repeats, reading the free cells gives back the bits written, up to the room there is |
| QrEncode.Builder.DrawCodewords | src/shared/qr.ts:240-256 | the three nested loops write the codewords' bits along the zigzag over the free cells and touch nothing else |
| QrEncode.Builder.ApplyMask | src/shared/qr.ts:258-264 | every free cell is flipped exactly where the mask applies, every function cell kept |
| QrMatrix.MaskTwice | src/shared/qr.ts:258-264 | applying a mask twice restores the matrix |
| QrMatrix.MaskUnique | src/shared/qr.ts:258-264 | what a mask makes of a matrix is determined |
| QrMatrix.MaskShapes | src/shared/qr.ts:330-342 | the eight mask patterns in an independent form, the last four by the product modulo 6 and 3 |
| QrEncode.Builder.DrawFormatBits | src/shared/qr.ts:197-207 | the format word is drawn in both copies, bit by bit at its cells, and nowhere else |
| QrMatrix.FormatDecodes | src/shared/qr.ts:153-158 | the format word fits 15 bits, and its top five, unmasked, are the level and the mask |
| QrFormat.FormatIsCodeword | src/shared/qr.ts:153-158 | unmasked by 0x5412, every format word is a carry-less multiple of 0x537, the five-bit quotient exhibited |
| QrFormat.FormatsApart | src/shared/qr.ts:153-158 | any two of the 32 format words differ in at least seven of their 15 bits |
| QrFormat.FormatCorrectable | src/shared/qr.ts:153-158 | a format word read with at most three wrong bits can have been meant for one level and mask only |
| QrMatrix.FormatCells | src/shared/qr.ts:197-207 | the coordinates of both copies of the format word and of the dark module |
| QrMatrix.FormatOverwrites | src/shared/qr.ts:197-207 | drawing a format over another leaves no trace of the earlier one |
| QrEncode.TryMask | src/shared/qr.ts:385-392 | one trial scores the masked and formatted matrix and restores every cell off the format modules |
| QrEncode.ChooseMask | src/shared/qr.ts:381-394 | the loop leaves the first of the masks with least penalty, and the matrix as before off the format modules |
| QrEncode.ChooseVersion | src/shared/qr.ts:369-375 | the smallest version in which the payload fits, or 41 when none does |
| QrEncode.EncodeAt | src/shared/qr.ts:376-403 | the finished matrix decodes to the payload |
| QrEncode.EncodeQr | src/shared/qr.ts:368-405 | fails exactly when no version fits or the forced mask is out of range; otherwise the version is the smallest that fits, the mask is the forced or first best one, the data are mode, length, payload and padding, and a reader that refuses wrong check bits of the format and blocks with a non-zero syndrome, unmasks, follows the zigzag, de-interleaves and parses, gets the payload |
| QrEncode.ModulesAre | src/shared/qr.ts:240-264 | in the finished symbol every pattern module off the format is as it was drawn, and every data module is its codeword bit, inverted exactly where the mask applies |
| QrEncode.FormatsAre | src/shared/qr.ts:197-207 | in the finished symbol both copies hold the format word bit by bit, and the dark module is dark |
| QrEncode.MaskIsBest | src/shared/qr.ts:381-394 | without a forced mask no other mask gives a symbol of less penalty, and no earlier one of as little |
| Funding.EstimateVsize | rust/wallet-core/src/build.rs:177-212 | the upper bound on the virtual size, overflow exactly when the weight exceeds 64 bits |
| TxSize.BuiltWithinEstimate | rust/wallet-core/src/build.rs:28-45 | serialized field by field, with any signature, surjection and range proof of the usual lengths, what is built of a funded request is no larger than estimated |
| TxSize.PaysRequestedRate | rust/wallet-core/src/build.rs:28-45 | so every funded request that is built pays at least the requested rate on its serialized size |
| Funding.SelectOthers | rust/wallet-core/src/build.rs:280-303 | for each needed or forced asset but the policy one: the shortest sufficient prefix of its candidates, largest first, and its change; a shortage only when all candidates fall short |
| Funding.SelectPolicy | rust/wallet-core/src/build.rs:305-358 | takes policy coins until they cover the need and the fee of what is taken so far, and not one coin earlier; fails only with the pool exhausted or the target over 64 bits |
| Funding.Fund | rust/wallet-core/src/build.rs:234-377 | the whole result of a success; a bad rate and a duplicate or excluded coin are reported exactly when they occur; a shortage or an overflow only when the request has one |
| FundingTheorems.Conservation | rust/wallet-core/src/build.rs:234-377 | per asset, selected inputs equal need plus change plus, for the policy asset, the fee |
| FundingTheorems.FeePaysRate | rust/wallet-core/src/build.rs:305-365 | the fee pays the rate for the estimated size of the final shape, exceeds the loop's estimate by at most 545, and equals it when there is policy change |
| FundingTheorems.ChangeIsSound | rust/wallet-core/src/build.rs:280-365 | at most one change per asset, none empty, policy change absent or at least 546 |
| FundingTheorems.BlindedOutputExists | rust/wallet-core/src/build.rs:305-365 | a confidential input always leaves a blinded output behind |
| FundingTheorems.InputsAreSound | rust/wallet-core/src/build.rs:234-377 | inputs start with the forced ones, are pairwise distinct, were all supplied, and avoid the excluded outpoints |
| FundingTheorems.FewestOthers | rust/wallet-core/src/build.rs:253-303 | no smaller choice of candidates of a non-policy asset covers its need |
| FundingTheorems.FewestPolicy | rust/wallet-core/src/build.rs:305-358 | a smaller sufficient choice of policy coins avoids confidential coins where as many of the largest coins include one |
| FundingTheorems.FewerWouldDoIff | rust/wallet-core/src/build.rs:305-358 | fewer policy coins would do exactly when, for some count, that many of the largest explicit candidates are enough while no that many or fewer of the largest candidates are |
| FundingTheorems.FewestPolicyUniform | rust/wallet-core/src/build.rs:305-358 | with no confidential policy candidate, or a confidential coin spent anyway, no smaller choice of policy coins pays for the need and its own fee |
| FundingTheorems.LargestFirstCanSpendMore | rust/wallet-core/src/build.rs:305-358 | a wallet for which the selection returns two coins where the smaller, explicit one would do |
| FundingUnique.FundingIsUnique | rust/wallet-core/src/build.rs:253-377 | a request has one result at most: coins, their order, change and fee are determined |
| FundingUnique.OrderIrrelevant | rust/wallet-core/src/build.rs:257-267 | candidates listed in another order give the same result, ties broken by outpoint |
| FundingUnique.ShortageIsReal | rust/wallet-core/src/build.rs:284-358 | where a shortage is reported, no selection funds the request |
| FundingUnique.FailureIsReal | rust/wallet-core/src/build.rs:234-377 | within the callers' limits a call fails only for a bad rate, a duplicate or excluded coin, or a request without result |
| FundingTheorems.NeverOverflows | rust/wallet-core/src/build.rs:177-212 | within the callers' limits on counts, amounts and scripts no total overflows, so only the rate, a duplicate or a shortage can fail a call |
| Review.Analyze | rust/wallet-core/src/review.rs:239-577 | accepts exactly the transactions that meet every ownership, shape, conservation and per-kind rule, and describes each completely: changes, fee, external outputs, inputs, issuance, sighash |
| Review.NetEffect | rust/wallet-core/src/review.rs:539-559 | the reviewed changes are exactly the non-zero differences per asset, the fee added back in the policy asset |
| ReviewTheorems.ReviewIsTruthful | rust/wallet-core/src/review.rs:283-559 | for every accepted non-offer transaction and asset, the reviewed change is what foreign inputs bring plus what is issued, less what external outputs take |
| ReviewTheorems.ReviewUnique | rust/wallet-core/src/review.rs:239-577 | a transaction has one review |
| ReviewTheorems.EveryOutputSorted | rust/wallet-core/src/review.rs:218-436 | every output of an accepted transaction is the policy-asset fee in last place, listed as external with exactly its address, asset and amount, or locked to the hash of the wallet key its one path derives and, if blinded, sealed to the wallet's own key for that script |
| LedgerTheorems.EveryInputSorted | rust/wallet-core/src/review.rs:182-359 | every input declares exactly the coin it spends, proven if hidden; it is listed to be signed, with the script, key, path and sighash of this wallet, or it is a maker's in a take, signed already; no two share an outpoint |
| LedgerTheorems.OutputsDeclared | rust/wallet-core/src/review.rs:361-404 | every amount created is of money, and proven where hidden; the one fee comes last |
| LedgerTheorems.LedgerEffect | rust/wallet-core/src/review.rs:239-577 | for every approved transaction and asset: what the spent outputs held for this wallet's scripts, less what the created ones hold, is the fee less the requested effect, but for coins taken unclaimed and payments to the wallet itself |
| Operations.ExpectDeltas | src/background/operations.ts:170-178 | passes exactly when changes and expectations agree on every asset, absent meaning zero |
| Operations.MatchOffers | src/background/operations.ts:248-270 | passes exactly when every offer is spent and the external payments are, counted with repetition, what the makers want; the sums are gives less wants |
| Operations.CheckSwapOfferReview | src/background/operations.ts:278-293 | passes exactly for one signed coin, the offered one, one wallet output and changes that are the swap |
| Operations.CheckReview | src/background/operations.ts:193-276 | passes exactly when the review expresses the requested effect: network, sighash, structure of the kind, change of every asset, fee bound |
| ReviewTheorems.SpendsExactly | src/background/operations.ts:193-293 | in a transaction that passed both checks the wallet gives up exactly the requested effect plus the fee, and the fee is at most rate times 100,000 |
| ReviewTheorems.EveryOutputAccounted | src/background/operations.ts:193-293 | in a transaction that passed both checks every output is the reviewed fee, a coin on a script of this wallet that it can open, or a reviewed payment, field by field |
| ReviewTheorems.TransferCostsExactly | src/background/operations.ts:200-214 | a transfer that passed costs the amount plus the fee in every asset, has no foreign input, and every output but the fee is on a script of this wallet or pays exactly the recipient, asset and amount |
| ReviewTheorems.SelfSendCostsFee | src/background/operations.ts:227-276 | a cancel or a split costs the fee alone and pays nobody; the cancelled outpoint is spent |
| ReviewTheorems.TakePaysExactly | src/background/operations.ts:248-270 | a take of distinct offers spends no foreign coin but the offered ones, pays each maker exactly what it wants, and costs wants less gives plus the fee |
| LedgerTheorems.TransferLedger | src/background/operations.ts:200-214 | on the ledger a transfer that passed takes from this wallet's scripts the fee and the amount and nothing else, and every input is signed by this wallet as a whole |
| LedgerTheorems.IssuanceLedger | src/background/operations.ts:215-226 | a passed issuance issues exactly the requested amounts, in the clear, at the first input alone, and this wallet's scripts gain all of it less the fee |
| LedgerTheorems.SelfSendLedger | src/background/operations.ts:227-276 | a passed cancel or split costs this wallet's scripts the fee, every other output is the wallet's, and a cancel spends the cancelled coin |
| LedgerTheorems.OfferLedger | src/background/operations.ts:278-293 | a transaction whose offer review passed, made directly or after a split, has one input, the offered coin, to be signed SINGLE and ANYONECANPAY, and one output, the wanted coin on a script of this wallet |
| LedgerTheorems.OfferSigns | src/background/operations.ts:227-247 | hence approving an offer of a coin signs for that coin alone, against exactly what is wanted |
| LedgerTheorems.TakeLedger | src/background/operations.ts:248-270 | a passed take of distinct offers spends exactly the offered coins besides the wallet's own, each with its maker's signature over the coin and the output beside it; what every offer wants is created, counted with repetition; all else but the fee is the wallet's |
| LedgerTheorems.TakeBalance | src/background/operations.ts:248-270 | on the ledger such a take from others costs this wallet's scripts what the offers want and the fee, and brings what they give |
| Drafts.DraftAccepted | rust/wallet-core/src/build.rs:379-503 | what the builder assembles from a sound draft is accepted by the review exactly when it keeps to the review's limits on counts, amounts and signed offers |
| Drafts.DraftMatches | rust/wallet-core/src/build.rs:437-822 | and its review passes the request check of the operation that asked for it |
| Builder.Finish | rust/wallet-core/src/build.rs:465-503 | finishing fails only beyond the review's limits; otherwise it returns the assembled transaction with its own review |
| Builder.FeeTolerated | rust/wallet-core/src/build.rs:234-377 | within those limits the selector's fee stays under the request check's bound of rate times 100,000 |
| Builder.PrepareTransfer | rust/wallet-core/src/build.rs:505-537 | succeeds exactly when amount and coins are in range and the request can be funded by a draft within the review's limits; the transaction is then determined, and passes review and request check for exactly this transfer, which includes that the wallet can open every blinded coin it keeps |
| Builder.PrepareIssuance | rust/wallet-core/src/build.rs:539-603 | likewise for the issuance; the first input is a policy coin and carries it, and both new coins go to this wallet |
| Builder.PrepareOfferSplit | rust/wallet-core/src/build.rs:605-641 | likewise for the first stage of an offer, with an output of exactly the offered coin |
| Builder.PrepareSwapOffer | rust/wallet-core/src/build.rs:643-673 | succeeds exactly for an explicit coin and a different wanted asset, amounts in range, and then passes review and request check |
| Builder.TakeSwapOffers | rust/wallet-core/src/build.rs:675-792 | likewise for taking distinct signed offers whose sums are in range, from explicit coins no maker offers; confidential coins are blamed only if there are some |
| Builder.PrepareCancel | rust/wallet-core/src/build.rs:794-822 | likewise for cancelling, the coin being spent and something left to return |
| Builder.IssuerIsPolicy | rust/wallet-core/src/build.rs:539-603 | nothing but policy coins is selected for an issuance |
| BuilderTheorems.SpendsFunded | rust/wallet-core/src/build.rs:379-412 | after the makers' inputs come exactly the funded coins, in order, each under the key that holds it |
| BuilderTheorems.KeepsRest | rust/wallet-core/src/build.rs:415-459 | then, after what others get, the received coins at the receiving key, the change at the change key, blinded to the wallet's own key for that script exactly when a confidential coin is spent, and the fee |
| BuilderTheorems.PaysOthers | rust/wallet-core/src/build.rs:505-792 | a transfer pays its payee at exactly the address given; a take pays each maker beside its signed input |
| BuilderTheorems.OffersCoin | rust/wallet-core/src/build.rs:643-673 | an offer spends its coin under the coin's key and asks for the wanted coin at the receiving key |
| Bech32.Polymod | src/network/esplora.ts:180-193 | the loop over any values is the fold of the checksum step, for both profiles |
| Bech32.FoldLinear | src/network/esplora.ts:180-193 | the checksum of an exclusive or is the exclusive or of the checksums, state included |
| Bech32.StepInjective | src/network/esplora.ts:129-193 | with either profile's generators, states within range that step alike on a value are equal |
| Bech32.GeneratorsDouble | src/network/esplora.ts:129-163 | the first generator of each profile is the polynomial of the code, and each later one is it with every coefficient doubled in the field of 32 elements |
| Bech32.SubstitutionDetected | src/network/esplora.ts:180-193 | replacing any one symbol changes the checksum, at any position and length |
| Bech32.ChecksumVerifies | src/network/esplora.ts:265-282 | values followed by their computed checksum fold to the constant, for both profiles and constants |
| AddressCodec.ConvertBits | src/network/esplora.ts:284-315 | refuses exactly out-of-range groups and bad padding; otherwise the output spells the same number, at the exact bit offset |
| AddressCodec.RegroupInverse | src/network/esplora.ts:284-315 | five-bit groups that regroup into bytes come back when the bytes are padded again |
| AddressCodec.RegroupUnique | src/network/esplora.ts:284-315 | no two byte strings come from the same groups |
| Addresses.DecodeChecksummedAddress | src/network/esplora.ts:215-263 | succeeds exactly when the text, in one case, spells known prefix, symbols and valid checksum within the length limit, and returns what is spelled |
| Addresses.SpellsUnique | src/network/esplora.ts:215-263 | a text spells at most one address |
| Addresses.EncodeSpells | src/network/esplora.ts:265-282 | an encoded text within the limit spells what was encoded |
| Addresses.TypoDetected | src/network/esplora.ts:215-282 | one substituted symbol in a spelled address leaves no valid spelling with that prefix and constant |
| Addresses.ResolveEcxAddress | src/network/esplora.ts:317-364 | resolves exactly the acceptable addresses: version, program length, padding, blinding key and checksum constant |
| Addresses.ResolvesUnique | src/network/esplora.ts:317-364 | an address text stands for one address at most |
| Addresses.ResolvesExactly | src/network/esplora.ts:215-364 | a text resolves exactly when, trimmed, in one case and lowered, it is a known prefix, a separator and symbols that carry a witness program of allowed version and size, zero padding and the right checksum |
| Addresses.ResolvedIs | src/network/esplora.ts:317-364 | what is resolved shows the version, the program's size, confidentiality and prefix that its symbols say |
| Addresses.SpellingsShow | src/network/esplora.ts:317-364 | canonical spelling and alias are the native and the alias prefix of the same kind before the same symbols and a checksum |
| Addresses.HrpExpandInjective | src/network/esplora.ts:172-178 | no two prefixes enter the checksum alike |
| Addresses.SpellingsResolve | src/network/esplora.ts:317-364 | canonical spelling and alias of every accepted address resolve again, with the same version, program and confidentiality, symbol by symbol, and the same two spellings; the canonical one is a fixed point |
| Addresses.NetworksUsable | src/network/profiles.ts:66-72 | the prefixes of both compiled networks, either way round, meet the hypotheses on prefixes |
| Commitment.TxCommitment | rust/instant/src/hash.rs:85-174 | refuses exactly the shapes outside the protocol; otherwise the digest of the nested encoding, the loops feeding every engine in order |
| CommitmentLayout.TransactionAt | rust/instant/src/hash.rs:160-173 | the 168 bytes hashed for the transaction, field by field at their offsets |
| CommitmentLayout.FourBytes | rust/instant/src/hash.rs:107-114 | indexes, sequences and the other 32-bit fields enter the hash most significant byte first |
| CommitmentLayout.InputAt | rust/instant/src/hash.rs:95-121 | what each input adds to each stream, and where |
| CommitmentLayout.OutputAt | rust/instant/src/hash.rs:143-151 | what each output adds to its streams |
| CommitmentLayout.ShapedMeans | rust/instant/src/hash.rs:95-112 | which transactions have a commitment: no peg-in, issuance or annex, and explicit coins only |
| CommitmentLayout.PromiseAt | rust/instant/src/hash.rs:181-189 | the 132 bytes a promise signs, field by field at their offsets |
| CommitmentBinding.CommitmentBinds | rust/instant/src/hash.rs:41-174 | without a collision among the strings hashed, equal commitments of accepted transactions of any size mean equal version, lock time, outpoints, sequences, script signatures, spent coins and outputs, and conversely |
| CommitmentBinding.BodyCommits | rust/instant/src/hash.rs:85-174 | changing witnesses alone never changes the commitment, whatever the hash |
| CommitmentBinding.ConcatDecodes | rust/instant/src/hash.rs:41-83 | a concatenation of self-delimiting pieces determines the pieces and their number |
| CommitmentBinding.OutputHash | rust/instant/src/hash.rs:70-83 | refuses exactly outputs that are not explicit |
| CommitmentBinding.OutputBinds | rust/instant/src/hash.rs:70-83 | equal output hashes mean equal asset, amount, nonce and script |
| CommitmentBinding.PairedDigest | rust/instant/src/hash.rs:195-207 | the tagged digest over the output's hash, refused exactly for outputs that are not explicit |
| CommitmentBinding.DigestBinds | rust/instant/src/hash.rs:181-207 | a digest fixes tag, network, lockbox and body, so a promise is never a paired authorization nor valid elsewhere |
| Watchtower.ShiftedByte | rust/instant/src/watchtower.rs:20-29 | the joined byte is the eight bits at the offset, read within bounds |
| Watchtower.BitWindow | rust/instant/src/watchtower.rs:17-31 | the 64 bytes are the 512 bits at the offset |
| Watchtower.SpareByte | rust/instant/src/watchtower.rs:40-42 | the filter on offsets drops none |
| Watchtower.FindSignature | rust/instant/src/watchtower.rs:35-45 | finds a signature exactly when some 512-bit window at some bit offset verifies |
| Watchtower.PromiseFromChain | rust/instant/src/watchtower.rs:49-74 | finds the promise exactly when the first input spending the lockbox carries one in its first witness element |
| Watchtower.EvidenceMeansEquivocation | rust/instant/src/watchtower.rs:77-86 | evidence arises exactly when the promised transaction is not the confirmed one, witnesses aside |
| Journal.AppendReplays | services/preconfer-signer/src/main.rs:109-213 | what the next opening makes of an append: the decision, durably, after a success; after a failure the decision if the whole line was written, a refusal if part of it, no change otherwise; earlier bytes stay |
| Journal.ReplaysExactly | services/preconfer-signer/src/main.rs:154-161 | the lines replay exactly when each is a valid receipt and no bond has two, and then as exactly those receipts |
| Journal.OpensExactly | services/preconfer-signer/src/main.rs:109-169 | a log opens exactly when it is empty and its header reaches the disk, or has at most 2 MiB, ends with a line break, begins with the header and has valid receipts of distinct bonds after it |
| Journal.DecisionJournal.Open | services/preconfer-signer/src/main.rs:109-169 | starts an empty log with a header; otherwise opens exactly the logs that replay, with the replayed decisions in memory |
| Journal.DecisionJournal.Commit | services/preconfer-signer/src/main.rs:171-189 | new memory, new file and answer of every branch: disabled, invalid, repeated, conflicting, failed append, accepted |
| Journal.FindForetells | services/preconfer-signer/src/main.rs:171-201 | a lookup foretells what a commit of the same transaction answers, in each of its three cases; an accepted receipt is found from then on and every other transaction for its bond conflicts |
| Journal.CommitExtends | services/preconfer-signer/src/main.rs:109-189 | appending a receipt's line adds exactly that decision to the replay |
| Journal.ReplayKeeps | services/preconfer-signer/src/main.rs:109-169 | a log beginning with an accepted log keeps all its decisions |
| JournalSafety.ReleasedAreLogged | services/preconfer-signer/src/main.rs:108-213 | over every run from an empty disk under a safe policy: every released receipt is in the log, no two conflict, and until an append fails memory is the replay of the file |
| JournalSafety.UnsyncedLineEquivocates | services/preconfer-signer/src/main.rs:109-189 | a run of the code as written that releases two conflicting receipts, given a power cut that loses bytes an open had accepted |
| JournalSafety.SafeIff | services/preconfer-signer/src/main.rs:417-473 | no run releases two transactions for a bond exactly when opening syncs what it accepts or accepted bytes survive power cuts |
| SpendPolicy.SpendOf | rust/wallet-cli/src/policy.rs:214-240 | the spend of a bundle is, per asset, the sum over its steps, absent when zero; fails exactly when a sum exceeds 64 bits |
| SpendPolicy.WindowSpend | rust/wallet-cli/src/policy.rs:243-254 | the saturated sum of the records less than 24 hours old |
| SpendPolicy.Evaluate | rust/wallet-cli/src/policy.rs:263-388 | allows exactly the requests on this network, within every per-transaction and rolling limit of every asset, with permitted recipients and DEX, and in auto mode a limit on each spent asset |
| SpendPolicy.AllowedMeans | rust/wallet-cli/src/policy.rs:263-388 | the decision on fields: every review for this network; all steps together within each per-transaction limit and, with the last day, within each daily limit; in auto mode a limit on each asset spent; outside DEX takes only listed scripts, in the clear; listed DEX |
| LimitSafety.RecentIsLastDay | rust/wallet-cli/src/policy.rs:243-254 | with no record from the future, recent is the window of 24 hours that ends now |
| SigningGate.AppendFailsClosed | rust/wallet-cli/src/audit.rs:45-114 | an append rewrites nothing and a success makes the whole file durable; a log that does not read never reads again, and exactly a line left without end or in part makes it so; only whole entries add records |
| SigningGate.AuditLog.History | rust/wallet-cli/src/audit.rs:94-114 | the records of signed entries in order; refused exactly when some line is not one whole entry |
| SigningGate.SignSteps | rust/wallet-cli/src/gate.rs:302-327 | each signature is recorded before the next; the log gains the first k steps' spends and nothing else, whatever fails; signatures are returned only once every record is durable |
| SigningGate.Authorize | rust/wallet-cli/src/gate.rs:202-300 | passes exactly when the log is readable, every step reviews as stated, the policy allows, and confirmation is given; otherwise says how the call ends and what it notes, case by case; leaves no spend record |
| SigningGate.AuthorizeAndSign | rust/wallet-cli/src/gate.rs:202-335 | signs everything exactly under those conditions with no fault; refuses, and parks, exactly when policy or confirmation say so and the note is written; any record in the log stems from an authorized step |
| GateTheorems.SignsWithinPerTx | rust/wallet-cli/src/policy.rs:314-320 | whatever one call signs, bundles summed, in both modes: of an asset with a per-transaction limit this wallet's scripts lose no more than the limit |
| GateTheorems.SignsWhatWasApproved | rust/wallet-cli/src/gate.rs:202-300 | what is signed is for this network, hashed as it is, and approved by that hash, by an answer, or by auto mode; parking never signs |
| LimitSafety.RunSound | rust/wallet-cli/src/gate.rs:202-335 | over every run of exclusive calls with a clock steady within a call, with failed appends, crashes, power cuts and restarts, no 24-hour window of the returned signatures or of the log exceeds a cap |
| LimitSafety.ReturnedStaysLogged | rust/wallet-cli/src/gate.rs:302-335 | over every run, overlapping calls and faults included, the durable part of the log accounts in every window for all that was ever returned |
| LimitSafety.CallKeepsCaps | rust/wallet-cli/src/gate.rs:202-335 | one call of the gate, however it fails, keeps every cap over every window |
| LimitSafety.CallKeepsPerTx | rust/wallet-cli/src/gate.rs:202-335 | one call of the gate, however it ends, records within every per-transaction limit |
| LimitSafety.ReturnsKeepPerTx | rust/wallet-cli/src/gate.rs:302-335 | over every run, overlapping calls, any clock and all faults included, what one call returns stays within every per-transaction limit |
| LimitSafety.SequentialCallsKeepCaps | rust/wallet-cli/src/gate.rs:234-335 | sequential calls keep every cap in both modes, saturation included, even if the clock steps between them |
| LimitSafety.CapsIff | rust/wallet-cli/src/policy.rs:314-330 | the signatures returned keep all caps over all runs exactly when calls exclude each other and the clock is steady within a call |
| ApprovalSafety.GoneNeverSigns | src/background/controller.ts:408-590 | over every run: an approval rejected, expired, taken or dropped by locking never gets a first signature |
| ApprovalSafety.SignsOnlyActive | src/background/controller.ts:401-406 | every first signature is made in a live session whose idle time has not run out |
| Controller.WalletController.ExpireApprovals | src/background/controller.ts:567-570 | exactly the approvals whose time has come are dropped |
| ApprovalSafety.SessionStartsClean | src/background/controller.ts:274-293 | a new session destroys the one before and starts with nothing pending: over every run only approvals filed afterwards are signed first |
| Controller.WalletController.BeginPrepare | src/background/controller.ts:393-399 | planning begins in the current session unless locked or eight approvals are pending |
| Controller.WalletController.FinishPrepare | src/background/controller.ts:452-495 | an approval is filed exactly when its review matches the operation, replacing earlier ones of the wallet itself |
| Controller.WalletController.TakeApproval | src/background/controller.ts:497-512 | the approval is consumed before anything is compared, and returned only for the live session, unexpired, with matching token and hash |
| ApprovalSafety.StepSound | src/background/controller.ts:214-591 | every step of every interleaving keeps the invariant on pending approvals, sessions, filed approvals and signatures |
| ApprovalSafety.OneApprovalOneSigning | src/background/controller.ts:452-545 | over every run: at most eight pending; each first signature has its own filed, matching, unexpired approval with right token and hash in its own session; each second one completes a split offer already signed once, is the only one, and whatever it reviews exchanges exactly the offered coin for the wanted one |
| ApprovalSafety.StaleNeverSigns | src/background/controller.ts:497-591 | once a session is destroyed no approval of it is ever signed, at either stage |
| ApprovalSafety.OwnReplacesOwn | src/background/controller.ts:452-495 | over every run at most one approval of the wallet's own pages is pending; filing one replaces it and leaves those of other origins as they are |
| GapScan.ScanChain | src/network/explorer-hd-scan.ts:721-784 | for every page size: the result is the one-by-one scan's, and failure means that one passes the maximum index |
| GapScan.ScanBranch | rust/wallet-cli/src/scan.rs:113-155 | the same for the second implementation with its minimum index |
| GapScan.ChainFound | src/network/explorer-hd-scan.ts:721-784 | field by field, what the scan hands out: all addresses up to the end of the first gap and no further, all their unspent outputs, and the used index just before the gap |
| GapScan.BranchFound | rust/wallet-cli/src/scan.rs:113-155 | the second scan lists the fewest addresses that reach the minimum index and end in a gap, and the index after the last used one |
| GapScan.FailsWithoutGap | src/network/explorer-hd-scan.ts:738-747 | either scan fails exactly when no gap of unused addresses fits under its maximum index, for the second one counting gaps that end at the minimum index or later |
| GapScan.FindsBeforeGap | src/network/explorer-hd-scan.ts:738-771 | a used index is found exactly when no gap precedes it |
| GapScan.ScansAgree | rust/wallet-cli/src/scan.rs:113-155 | any answers of the two programs, whatever their page sizes and limits, list the same addresses and next unused index; with equal limits the command line answers wherever the extension does |
| GapScan.NextIsFresh | src/network/explorer-hd-scan.ts:773-784 | the next unused index starts the gap, and its predecessor, if any, is used |
| Activity.ComputeActivity | src/network/activity.ts:146-223 | the entry lists exactly the non-zero changes, has a fee exactly when there are inputs and all of them are on scripts of this wallet, and is complete exactly when every amount of its own is reported or was unblinded |
| Activity.NetIs | src/network/activity.ts:146-223 | summed over any ledger, entries less paid fees are receipts less spends |
| Activity.ActivityIsBalance | src/adapters/elementsplus-wasm.ts:157-185 | over any ledger that spends each wallet output at most once, all amounts known, that sum is the total of the unspent outputs, per asset |
| Activity.UnspentMeans | src/network/activity.ts:146-223 | what is unspent there: an output that is no fee, on a script of the wallet, with its reported or else its unblinded amount, which no input on such a script spends |
| Activity.FeeHead | src/network/activity.ts:178-183 | the fee of a transaction is the sum of its fee outputs of known amounts of the policy asset |
| Calendar.ConsecutiveDays | rust/wallet-cli/src/audit.rs:23-42 | consecutive day numbers give consecutive dates |
| Calendar.CivilIsCalendar | rust/wallet-cli/src/audit.rs:23-42 | for every day number the date is valid and the one reached by counting from 1 January 1970 |
| Calendar.LaterIsLater | rust/wallet-cli/src/audit.rs:23-42 | later days have later dates, so no date is printed for two days |
| Calendar.StampIsExact | rust/wallet-cli/src/audit.rs:23-42 | date and time of day together account for every second |
| Amounts.FormatAtomic | src/shared/amount.ts:60-73 | the whole part, grouped or not, and the fraction with zeros trimmed down to the wanted count |
| Amounts.GroupedAt | src/shared/amount.ts:46-48 | counted from the right, every fourth character of a grouped number is a comma and the others are the digits |
| Amounts.ParseFormatted | src/shared/amount.ts:29-73 | parsing a formatted amount returns it, for every unsigned 64-bit amount, precision up to 8, kept digits and grouping |
| Amounts.StripAt | src/shared/amount.ts:31 | reading drops commas, underscores and spaces wherever they stand, and nothing else |
| Text.TrimIs | src/shared/amount.ts:31 | trimming takes away white space at both ends, all of it and nothing else |
| Amounts.ParsesExactly | src/shared/amount.ts:29-44 | the extension reads exactly digits with at most one point, no more decimals than the asset has, up to 40 characters, as what they are worth within 64 bits |
| Amounts.DecimalReads | rust/wallet-cli/src/amount.rs:34-72 | both programs read a plain decimal alike |
| Amounts.ParseFormatAmount | rust/wallet-cli/src/amount.rs:13-91 | parsing a formatted amount returns it, for every positive amount of money and precision up to 8 |
| Amounts.ParseAmountExactly | rust/wallet-cli/src/amount.rs:13-72 | the command line reads exactly digits with a point only between digits, or prefixed atomic units without leading zero, positive and within the money range |

## Left out

- QrEncode.EncodeQr: finder, timing, alignment and version patterns are a parameter; the hypothesis `Usable` says that their map is square, contains the format modules and leaves enough free cells. The penalty is an arbitrary function of the matrix, and the payload is bytes, not text.
- Cryptography, PSET and consensus serialization, blinding and its proofs: keys, scripts and issuance ids are symbolic, `amountProofs` says that the proofs verify, and an issued asset and its token are taken to have different ids. A blinded output names a blinding key and is sealed to one; only that key opens it.
- Review.Analyze: the kinds of error are merged into one, and the globals and per-field checks on raw PSET keys are single flags; the preview of the recovered explicit PSET adds no condition and is not modelled.
- Builder.Finish: its refusal to blind beside foreign inputs cannot arise, because a take funds itself from explicit coins.
- Builder.TakeSwapOffers: parsing and verifying the makers' signed offers is the flag `clean`.
- Operations.CheckReview: parsing of amounts and addresses in requests is done before; addresses are compared as values.
- Journal.DecisionJournal.Open: JSON is an abstract codec that decodes what it encodes, without line breaks; the file lock and file modes are left out.
- JournalSafety.SafeIff: relays and broadcasting are the moment of release; the network half of the service and the check of the transaction before signing are left out.
- SpendPolicy.Evaluate: the texts of violations and notes are a count; reading the policy file, tickers and normalising URLs are left out.
- SigningGate.AuditLog.History: JSON is abstract: an entry is read back as written, and parts of entries or several entries on one line are not JSON.
- SigningGate.AuthorizeAndSign: parked bundles, prompts and broadcasting are outside; confirmation is an answer given as a parameter, and times stamped on entries are parameters.
- ApprovalSafety.OneApprovalOneSigning: vault, storage, unlocking and settings are steps with arbitrary outcome; ids are fresh numbers.
- The provider router and the site permissions before the controller.
- GapScan.ScanBranch: the result does not say that the scan ended under the ceiling, because the code looks at the ceiling only between pages.
- GapScan.ScanChain: failing lookups, the pool of concurrent requests, the page count and the verification of funding transactions are left out; the answer for an index does not depend on when it is asked.
- Activity.ComputeActivity: kind, counterparty, sorting and parsing are left out, as are the confidential outputs offered for unblinding.
- Calendar.StampIsExact: the padding of the printed digits is left out.
- Amounts.FormatAtomic: the sign of negative or signed amounts is left out.
- Amounts.ParseFormatAmount: both programs trim the same white space here; the two languages differ on one rare character each.
- CommitmentBinding.CommitmentBinds: the hash is a parameter without collisions on the strings actually hashed, since no function into 32 bytes is injective.
- Watchtower.FindSignature: signature verification is a parameter.
- HTTP clients, user interface, DEX, Simplicity compilation and the small registries.

# simple-blockchain ledger core in Dafny

This project models the ledger logic of a minimal hash-linked ledger, written
in Rust in `src/blockchain.rs`. It covers three things:

- A transaction stores a digest of its sender, recipient, decimal amount and
  timestamp, concatenated in that order with no separators.
- A block stores a digest of the bracketed, `", "`-separated list of its
  transactions' printable forms, then its timestamp, decimal nonce, decimal
  amount and previous-block digest.
- Mining advances the nonce and recomputes the digest until the first
  `difficulty` characters of the digest are all `'0'`.

Three modules, one per concern:

- `Decimal` (`decimal.dfy`): the decimal text of an unsigned integer, the role
  of Rust's `u64::to_string`. A parser proves that the rendering loses nothing.
- `Render` (`render.dfy`): the list text `"[" + items joined by ", " + "]"`,
  with lemmas on where each item and each separator lands.
- `Blockchain` (`blockchain.dfy`): the `Transaction` value, the `Block`
  class, both digest computations, both printable forms, and the mining loop.

Collaborators become parameters:

- The digest primitive `hash_string` becomes a function `h: string -> string`
  (type `Hasher`). Nothing is assumed about it beyond being a function. A
  transaction constructor takes it as an argument. A `Block` receives it once,
  in its constructor, and keeps it as the `const` field `h`. So digesting and
  mining one block always use the same digest function, as the single
  `hash_string` does in the source.
- The clock read `chrono::offset::Utc::now()` becomes an explicit `timestamp`
  string argument of the constructors.

A `Transaction` is a datatype. Nothing updates a transaction after it is
built, and the block owns its transactions exclusively. `Block` is a class.
Its `nonce` and `hash` are mutable fields. Its timestamp, amount, previous
digest and transaction list are `const`, because nothing writes them after
construction. So "mining changes only the nonce and the digest" holds by the
`modifies this`nonce, this`hash` frame and the `const` declarations.

## Model

| member | source | states |
|---|---|---|
| `Blockchain.NewTransaction` | src/blockchain.rs:26-39 | the new transaction keeps the given sender, recipient, amount and timestamp, and its digest is `h(from + to + decimal(amount) + timestamp)`, with no separators, in that order |
| `Blockchain.CalcTransactionHash` | src/blockchain.rs:41-48 | after the step-by-step appends, the digest is current for the fields; no other field changes; on a transaction whose digest is already current, nothing changes (idempotence) |
| `Blockchain.Transaction.Print` | src/blockchain.rs:110-116 | the printable form is a bracketed text of at least two characters (its body is the `"[From: {}, To: {}, Ammount: {}, Timestamp: {}, Hash: {}]"` template) |
| `Blockchain.TransactionPrintShape` | src/blockchain.rs:110-116 | a transaction's printable form starts with `"[From: "` and the sender, and ends with `", Hash: "`, its own digest and `"]"` |
| `Blockchain.TxPrintsAt` | src/blockchain.rs:70-71 | the k-th rendered form is the k-th transaction's `print()`, so list order is kept |
| `Blockchain.Block.constructor` | src/blockchain.rs:52-65 | the new block has nonce 0, an empty previous digest and exactly the given transactions, amount and timestamp; its digest is `h(list text + timestamp + decimal(0) + decimal(amount) + "")`, the `calc_hash` formula for those fields; the block keeps the given digest function `h` for all later digests, and its digest is current (`HashIsCurrent()`) |
| `Blockchain.Block.GetTransactions` | src/blockchain.rs:67-79 | the appending loop, with its `s.len() > 1` separator test, returns exactly `RenderList` of the transactions' printable forms: `"[]"` for no transactions, otherwise `"["`, the forms in list order separated by `", "`, then `"]"` |
| `Blockchain.Block.CalcHash` | src/blockchain.rs:81-89 | the digest becomes `h(list text + timestamp + decimal(nonce) + decimal(amount) + previous digest)`; calling it again with no field changed leaves the digest unchanged |
| `Blockchain.Block.MineBlock` | src/blockchain.rs:91-99 | on return `mined` holds exactly when the first `difficulty` characters of the digest exist and are all `'0'`; the nonce never decreases; a digest that already meets the goal (for example with difficulty 0) is returned with nonce and digest unchanged; once the nonce moved, the digest is current for the final nonce; every nonce tried before the final one missed the goal; only the nonce and the digest may change |
| `Blockchain.Block.NoneMinedAt` | src/blockchain.rs:94-98 | each nonce in a range that mining stepped over gives a digest without the required `'0'` prefix |
| `Blockchain.PrefixTestIsGoal` | src/blockchain.rs:92-94 | the loop test (the first `difficulty` characters taken from the digest equal a string of `difficulty` zeros) holds exactly when the digest has at least `difficulty` characters and the first `difficulty` of them are `'0'` |
| `Blockchain.DigestInputSeparatesNonces` | src/blockchain.rs:81-89 | two block digest inputs that differ only in the nonce are equal exactly when the nonces are equal, so each mining step digests a new text |
| `Blockchain.Block.Print` | src/blockchain.rs:102-108 | a block's printable form starts with `"[Transactions: "` and the list text, and ends with `", Hash: "`, the digest, `", PreviousHash: "`, the previous digest and `"]"` |
| `Decimal.NatToString` | src/blockchain.rs:45 | the decimal text of `n` (the role of `u64::to_string` here and at lines 85-86, and of `{}` on a `u64` at lines 105 and 112-113) is non-empty and ends with the units digit of `n` |
| `Decimal.NatToStringWellFormed` | src/blockchain.rs:45 | the decimal text is a non-empty string of digits; it starts with `'0'` only for zero; it is one digit long exactly below ten |
| `Decimal.DecimalRoundTrip` | src/blockchain.rs:45 | parsing the decimal text of `n` gives back `n` |
| `Decimal.NatToStringInjective` | src/blockchain.rs:85 | distinct numbers have distinct decimal texts |
| `Render.RenderList` | src/blockchain.rs:67-79 | the list text is at least two characters long, opens with `'['` and closes with `']'`; an empty list renders as `"[]"` |
| `Render.JoinItem` | src/blockchain.rs:70-76 | each item appears verbatim at its offset in the joined text |
| `Render.JoinSeparator` | src/blockchain.rs:72-74 | consecutive items are separated by exactly `", "` |
| `Render.OffsetIncreasing` | src/blockchain.rs:70-76 | an earlier item ends, with room for the two-character separator after it, before any later item starts |
| `Render.RenderListItem` | src/blockchain.rs:67-79 | item `i` appears verbatim in the list text right after the opening bracket and the earlier items |
| `Render.RenderListOrder` | src/blockchain.rs:67-79 | for `i < j`, item `i` appears verbatim in the list text, followed by exactly `", "`, and item `j` appears verbatim only after both |
| `Render.RenderListSeparator` | src/blockchain.rs:72-74 | when another item follows item `i`, the two characters right after item `i` in the list text are `", "` |
| `Render.RenderListLength` | src/blockchain.rs:67-79 | the list text is 2 characters long for no items; otherwise its length is the sum of the item lengths plus 2 per item |

## Left out

- `src/main.rs` (process orchestration) is not part of this model. It covers
  key generation, printing to standard output and a fixed difficulty of 4. Its
  four-argument call to `Transaction::new` does not match the three-parameter
  constructor in `src/blockchain.rs`.
- The clock is left out: `Utc::now()` and its `{:?}` formatting become the
  `timestamp` argument, an opaque string.
- The digest algorithm behind `hash_string` is left out. Properties that
  depend on it are not stated: collision resistance, "the digest changes when
  a field changes", and the expected number of mining steps.
  `DigestInputSeparatesNonces` states the hash-independent part: the digest
  input does change with the nonce.
- Blockchain.Block.MineBlock: the Rust loop has no bound and does not
  terminate when no nonce meets the goal, for example when `difficulty` is
  longer than any digest. The model adds a `fuel` bound on the number of nonce
  steps and returns `mined == false` when it runs out. Every other property is
  stated for whatever the loop has done by the time it returns.
- `nonce` and both `ammount` fields are `nat`. The `u64` wrap-around or
  overflow panic of `self.nonce += 1` is not modelled. `difficulty` (`usize`)
  is a `nat`.
- Blockchain.CalcTransactionHash: `Transaction::calc_hash` updates the `hash`
  field in place. The model returns the updated record instead. Transactions
  are values, so the model does not capture the move of a transaction's
  ownership into the block.
- Strings are sequences of characters. The separator test `s.len() > 1`
  counts bytes in Rust and characters here. That gives the same answer,
  because the buffer holds `"["` alone exactly before the first item, and
  every printable form is non-empty.
- Sender and recipient are meant to be non-empty identifiers. The code does
  not check this, so the model has no such precondition.

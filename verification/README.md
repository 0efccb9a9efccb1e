# WizCoin membership approval programs, modelled in Dafny

WizCoin issues one membership token (an Algorand Standard Asset) per account.
Two PyTeal approval programs decide the application calls made to the WizCoin
application: `assets/wizcoin_smart_contract.py` (the contract) and
`assets/wizcoin_smart_sig.py`, an independently written variant that, despite
its name, is compiled in Application mode and reads the same global state.

Each program is modelled as a function of the stored global state (`manager`,
`ASA_id`), the atomic transaction group, the caller's position in it and a
read-only ledger view (the application's address and the asset holdings of
accounts). It returns `Approve(newGlobals, innerTransfers)` or
`Reject(failure)`. A failed `Assert`, an out-of-range access
(`application_args[0]` with no arguments, `Gtxn[1]` in a group of one,
`accounts[1]` with no referenced account), a holding read or an inner
`xfer_asset` of an asset the call does not list among its foreign assets, an
inner `asset_receiver` the call cannot name, a
`btoi` of more than 8 bytes and a `Cond` with no matching clause all abort the program; each is a rejection,
tagged with the check that failed. The tag is informational: the ledger only
sees approve or reject.

Files:

- `Wrappers.dfy`: the `Option` type.
- `Avm.dfy`: bytes, `btoi`/`itob`, transactions of a group, `accounts[i]` and
  `Gtxn[k]` indexing, asset holdings, global state, inner transfers, outcomes.
- `WizcoinContract.dfy`: the contract's `is_manager`, `init_contract`,
  `opt_in_wizcoin`, `relinquish_wizcoins`, `join_wizcoin` and the `Cond`
  dispatch, as functions; and `Application`, a class holding the two
  global-state fields whose `Invoke` runs the program step by step (the
  `globalPut` writes in place, the inner transaction built and submitted),
  proved to agree with `Evaluate`.
- `WizcoinSig.dfy`: the same for the variant, which keeps only creation,
  delete/update, opt-in/close-out and `join_wizcoin`.
- `Variants.dfy`: how the two programs relate.
- `Scenarios.dfy`: the deployment and join flows of the repository's tests,
  for arbitrary addresses.

Ledger conventions the model makes explicit: `Txn.accounts[0]` is the sender
and `accounts[i]` for `i >= 1` the i-th referenced account;
`AssetHolding.balance(Int(1), ...)` reads the caller's first referenced
account; `Gtxn[0].accounts[1]` reads the first transaction of the group,
which in the contract's join is forced to be the caller. Application
arguments sent as integers are 8-byte big-endian strings, so `btoi` of the
creation argument gives back the asset id (`Avm.BtoiItob`).

Behaviour worth noting:

- The variant program has its own `init_contract` clause and, on join,
  submits an inner asset transfer that leaves `xfer_asset` unset
  (`asset == None` in the model). No asset 0 exists, so on a ledger that
  transfer fails and the whole call with it: an approval of the variant's
  join (`Variants.SigAcceptsLooseJoin`, `Variants.SigIssuesToHolder`,
  `Scenarios.SigJoinBoundaries`) means that its checks passed, not that a
  token would be delivered.
- `relinquish_wizcoins` never checks that the referenced account is the
  application's own; any account with a defined holding is accepted
  (`Scenarios.Relinquish`).
- The variant compares the holding with 0 without `hasValue`, so an account
  that never opted in (whose read gives 0) passes.
- The variant checks the payer against the first transaction's account but
  reads the holding of the caller's account. With a call to another
  application first and the variant's call third, naming an account with no
  token before the payer, every check passes and a transfer to a payer who
  already holds a token is submitted (`Variants.SigIssuesToHolder`).
- The variant's receiver, the payer, must be an account its call may name;
  when the caller does not list the payer the join aborts
  (`Variants.SigReceiverMustBeNameable`). The contract's receivers (its own
  address, the manager who is the caller, the payer who is the caller's one
  referenced account) are always nameable, as `WizcoinContract.Evaluate`
  states.

## Model

| member | source | states |
|---|---|---|
| `Avm.Btoi` | assets/wizcoin_smart_contract.py:27 | `btoi` succeeds exactly on strings of at most 8 bytes, and then yields their big-endian value, below 2^64 |
| `Avm.BigEndian` | assets/wizcoin_smart_sig.py:26 | the big-endian value of n bytes is below 256^n |
| `Avm.FixedWidth` | tests/conftest.py:60 | the n-byte big-endian encoding of an integer decodes to that integer modulo 256^n (how an integer application argument is sent) |
| `Avm.BtoiItob` | tests/test_deployment.py:19 | `btoi` of the 8-byte encoding of any 64-bit integer gives that integer back |
| `Avm.AccountAt` | assets/wizcoin_smart_contract.py:102 | `accounts[i]` is defined exactly for index 0 (the sender) and for 1..n on a call naming n accounts; otherwise the access aborts |
| `Avm.GroupAt` | assets/wizcoin_smart_sig.py:16 | `Gtxn[k]` is defined exactly for k below the group size |
| `Avm.Holding` | assets/wizcoin_smart_contract.py:87 | the holding read has a value exactly when the account has opted in to the asset |
| `WizcoinContract.IsManager` | assets/wizcoin_smart_contract.py:17 | the caller is the stored manager: the sender equals the `manager` key |
| `WizcoinContract.Init` | assets/wizcoin_smart_contract.py:22-29 | approves iff there is exactly one argument of at most 8 bytes; then manager := sender, ASA_id := the argument's integer value, no inner transfer; a wrong argument count is rejected by the first assertion |
| `WizcoinContract.OptInWizcoin` | assets/wizcoin_smart_contract.py:34-51 | approves iff the caller is the manager, there is one argument and the call lists ASA_id among its foreign assets; then exactly one inner transfer of 0 units of ASA_id to the application's own address, state unchanged; a non-manager is rejected first |
| `WizcoinContract.RelinquishWizcoins` | assets/wizcoin_smart_contract.py:58-79 | approves iff manager, one argument, one referenced account, ASA_id listed among the foreign assets and that account's holding defined; then one transfer of exactly that holding of ASA_id to the manager, state unchanged |
| `WizcoinContract.JoinWizcoin` | assets/wizcoin_smart_contract.py:85-118 | approves iff all its checks hold (group of 2, one argument, one account, payment, fee >= 2000, amount exactly 50,000,000, receiver is the application, Gtxn[0].accounts[1] is the payer, ASA_id listed among the foreign assets, payer's holding defined and 0); then the caller is first in the group, the payer held Some(0), and one transfer of 1 unit of ASA_id to the payer is the only effect; a group not of size 2 is rejected first |
| `WizcoinContract.Evaluate` | assets/wizcoin_smart_contract.py:123-132 | first-match dispatch: app id 0 runs init whatever the completion type; delete/update approve iff the caller is the manager; opt-in/close-out always approve with no effect; otherwise no argument or an unknown `args[0]` rejects and each exact name runs its block; only init writes global state; at most one inner transfer, only from a plain call, always of ASA_id, and always to an account the call may name |
| `WizcoinContract.Application.constructor` | assets/wizcoin_smart_contract.py:8-9 | fresh global storage before the creation call |
| `WizcoinContract.Application.Invoke` | assets/wizcoin_smart_contract.py:22-132 | the step-by-step run approves exactly when `Evaluate` does, leaves the fields equal to its new globals and submits its inner transfers; a rejected run leaves both fields unchanged and submits nothing |
| `WizcoinSig.IsManager` | assets/wizcoin_smart_sig.py:32 | the caller is the stored manager: the sender equals the `manager` key |
| `WizcoinSig.Init` | assets/wizcoin_smart_sig.py:21-28 | the same creation rule as the contract: one argument of at most 8 bytes, manager := sender, ASA_id := its value |
| `WizcoinSig.JoinWizcoin` | assets/wizcoin_smart_sig.py:38-64 | approves iff one argument, a second group member that is a payment with fee <= 1000, amount exactly 50,000,000 and the application as receiver, Gtxn[0].accounts[1] is the payer, ASA_id listed among the foreign assets, the caller's first account holds 0 or has no holding, and the payer is an account the call may name (its sender, a listed account or the application); then one transfer of 1 unit with no asset id to the payer |
| `WizcoinSig.Evaluate` | assets/wizcoin_smart_sig.py:69-76 | the contract's first five clauses, then only `join_wizcoin`; any other first argument rejects; only init writes global state; at most one inner transfer, of amount 1 and no asset id |
| `WizcoinSig.Application.constructor` | assets/wizcoin_smart_sig.py:8-9 | fresh global storage before the creation call |
| `WizcoinSig.Application.Invoke` | assets/wizcoin_smart_sig.py:21-76 | the step-by-step run agrees with `Evaluate` and leaves the state unchanged when it rejects |
| `Variants.SharedClausesAgree` | assets/wizcoin_smart_sig.py:69-74 | on creation and on every non-plain completion type the two programs give the same outcome |
| `Variants.SigRejectsManagerOps` | assets/wizcoin_smart_sig.py:75-76 | the variant rejects `opt_in_wizcoin` and `relinquish_wizcoins` calls as unmatched |
| `Variants.NoJoinThroughBoth` | assets/wizcoin_smart_sig.py:46 | whenever the contract approves a join, the variant rejects the same call at its fee check |
| `Variants.SigAcceptsLooseJoin` | assets/wizcoin_smart_sig.py:39-52 | the variant approves a join in a group of three, naming two accounts, by a payer that never opted in, which the contract rejects on group size |
| `Variants.SigIssuesToHolder` | assets/wizcoin_smart_sig.py:51-59 | the variant, called third in a group after a call to another application that names the payer, passes every check and submits a 1-unit transfer to a payer already holding 1, because it reads the holding of the caller's account rather than the payer's |
| `Variants.SigReceiverMustBeNameable` | assets/wizcoin_smart_sig.py:59 | the same group with the payer missing from the caller's accounts is rejected at the inner transfer's receiver |
| `Scenarios.Deployment` | tests/test_deployment.py:19-20 | creating with the 8-byte encoding of an asset id stores the creator as manager and that id, in both programs |
| `Scenarios.ManagerOptIn` | tests/conftest.py:76-82 | the manager's `opt_in_wizcoin` call emits the zero self-transfer of the asset |
| `Scenarios.JoinOnce` | tests/test_interaction.py:33-57 | a registered account with holding 0 joins and is sent 1 unit; with holding 1 the identical group rejects as already holding |
| `Scenarios.ContractJoinBoundaries` | assets/wizcoin_smart_contract.py:97-98 | fee 1999 rejects and 2000 passes; amounts 49,999,999 and 50,000,001 reject |
| `Scenarios.SigJoinBoundaries` | assets/wizcoin_smart_sig.py:46-47 | in the variant fee 1000 passes and 1001 rejects |
| `Scenarios.OnlyManagerAdministers` | assets/wizcoin_smart_contract.py:125-131 | a non-manager caller is rejected on delete, update, `opt_in_wizcoin` and `relinquish_wizcoins` |
| `Scenarios.Relinquish` | tests/conftest.py:106-113 | the manager's relinquish call sends the named account's whole holding to the manager, whichever account is named |

## Left out

- Executing the inner transfers: holdings are an input, and the transfers a program submits are returned as descriptions. The ledger-level round trip (opt-in followed by relinquish empties the application's holding) is therefore not stated.
- Fee pooling, minimum-balance rules, asset opt-in mechanics, signature and multisig verification: ledger behaviour the programs rely on but do not implement.
- The ordering of groups across the ledger, which makes the holding check act as a check-and-set; the model evaluates one group against one snapshot.
- Global state read before creation: every application with a non-zero id ran a successful creation call, so both keys are always present.
- The ClearState completion type and the clear-state program, which this approval program never sees; the clear-state program is not part of this model.
- The planned withdraw block, which has no code.
- TEAL code generation (`compileTeal`) and the unused `base64` import.
- WizcoinSig.JoinWizcoin: compares the holding value (0 when absent) with 0, as intended; whether PyTeal accepts comparing the unevaluated `asset_balance` with `Int(0)` is not modelled.
- Asset ids smaller than the number of foreign assets a call lists, which the holding read takes as positions in that list: no real asset has such an id.
- Transaction fields the programs never read, and 64-bit limits on amounts and fees (the programs only compare them, so no arithmetic can wrap).

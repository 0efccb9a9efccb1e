/**
 * The slice of the Algorand virtual machine (TEAL version 5, Application mode)
 * that the two WizCoin approval programs observe: byte strings, the fields of
 * the transactions in an atomic group, the read-only view of asset holdings,
 * the global-state record, the inner asset transfers a program may submit, and
 * the verdict of one evaluation.
 */
module Avm {
  import opened Wrappers

  newtype byte = b: int | 0 <= b < 256

  /** A TEAL byte string (application arguments, addresses, state keys). */
  type Bytes = seq<byte>

  /** An account address; single-key and multisig accounts are not distinguished. */
  type Address = Bytes

  type AssetId = nat

  /** The byte string spelled by an ASCII literal, as `Bytes("...")` builds it. */
  function Ascii(s: string): (b: Bytes)
    requires forall i | 0 <= i < |s| :: s[i] as int < 128
    ensures |b| == |s|
    ensures forall i | 0 <= i < |s| :: b[i] as int == s[i] as int
  {
    seq(|s|, i requires 0 <= i < |s| => s[i] as int as byte)
  }

  // ---------------------------------------------------------------- integers

  /** 256 to the power n: the number of values n bytes can hold. */
  function Pow256(n: nat): (p: nat)
    ensures p > 0
  {
    if n == 0 then 1 else 256 * Pow256(n - 1)
  }

  /** The unsigned big-endian value of a byte string of any length. */
  function BigEndian(b: Bytes): (n: nat)
    ensures n < Pow256(|b|)
  {
    if b == [] then 0 else BigEndian(b[..|b| - 1]) * 256 + b[|b| - 1] as nat
  }

  /** TEAL `btoi`: the big-endian value of at most 8 bytes; a longer string aborts the program. */
  function Btoi(b: Bytes): (r: Option<nat>)
    ensures r.Some? <==> |b| <= 8
    ensures r.Some? ==> r.value < Pow256(8) && r.value == BigEndian(b)
  {
    if |b| > 8 then None else Some(BigEndian(b))
  }

  /** The last `width` bytes of the big-endian encoding of n. */
  function FixedWidth(n: nat, width: nat): (b: Bytes)
    ensures |b| == width
    ensures BigEndian(b) == n % Pow256(width)
  {
    if width == 0 then []
    else
      var prefix := FixedWidth(n / 256, width - 1);
      var b := prefix + [(n % 256) as byte];
      assert b[..|b| - 1] == prefix;
      ModStep(n, Pow256(width - 1));
      b
  }

  /** TEAL `itob`: the 8-byte big-endian encoding of a 64-bit unsigned integer. */
  function Itob(n: nat): (b: Bytes)
    requires n < Pow256(8)
    ensures |b| == 8
  {
    FixedWidth(n, 8)
  }

  /** `btoi` inverts `itob`: an integer argument encoded by a client decodes to itself. */
  lemma BtoiItob(n: nat)
    requires n < Pow256(8)
    ensures Btoi(Itob(n)) == Some(n)
  {
    assert BigEndian(Itob(n)) == n % Pow256(8);
    ModOfSmaller(n, Pow256(8));
  }

  lemma ModOfSmaller(n: nat, d: nat)
    requires n < d
    ensures n % d == n
  {
    ModUnique(n, d, 0, n);
  }

  /** Euclidean division leaves one remainder only. */
  lemma ModUnique(n: int, d: int, k: int, r: int)
    requires d > 0 && n == d * k + r && 0 <= r < d
    ensures n % d == r && n / d == k
  {
    var q, m := n / d, n % d;
    assert d * (k - q) == m - r;
    if k > q {
      MulAtLeast(d, k - q);
      assert false;
    } else if k < q {
      MulAtLeast(d, q - k);
      assert false;
    }
  }

  lemma MulAtLeast(d: int, x: int)
    requires d > 0 && x >= 1
    ensures d * x >= d
  {
  }

  /** One byte of a big-endian encoding: peeling the last byte off n and then reducing. */
  lemma ModStep(n: nat, p: nat)
    requires p > 0
    ensures (n / 256 % p) * 256 + n % 256 == n % (256 * p)
  {
    var q, r := n / 256, n % 256;
    var k, m := q / p, q % p;
    assert n == 256 * q + r;
    assert q == p * k + m;
    assert n == (256 * p) * k + (256 * m + r) by {
      assert 256 * q == 256 * (p * k) + 256 * m;
      assert 256 * (p * k) == (256 * p) * k;
    }
    ModUnique(n, 256 * p, k, 256 * m + r);
  }

  // ------------------------------------------------------------ transactions

  datatype OnCompletion = NoOp | OptIn | CloseOut | UpdateApplication | DeleteApplication

  /** One transaction of an atomic group, with the fields the programs read. */
  datatype Txn =
    | Payment(sender: Address, fee: nat, receiver: Address, amount: nat)
    | AssetTransfer(sender: Address, fee: nat, assetReceiver: Address, xferAsset: AssetId, assetAmount: nat)
    | ApplicationCall(sender: Address, fee: nat, applicationId: nat, onCompletion: OnCompletion,
                      applicationArgs: seq<Bytes>, accounts: seq<Address>, foreignAssets: seq<AssetId>)

  /**
   * An asset a call may touch: reading a holding of it, or naming it as the
   * `xfer_asset` of an inner transfer, aborts unless the call lists it among
   * its foreign assets. (An id smaller than the number of listed assets, which
   * the holding read takes as a position in that list, is not distinguished.)
   */
  predicate AssetAvailable(call: Txn, asset: AssetId)
    requires call.ApplicationCall?
  {
    asset in call.foreignAssets
  }

  /**
   * An account a call may name in an address field of an inner transaction:
   * its sender, one of its referenced accounts, or the application itself.
   * Naming any other account in `asset_receiver` aborts.
   */
  predicate AccountAvailable(call: Txn, account: Address, ledger: Ledger)
    requires call.ApplicationCall?
  {
    account == call.sender || account in call.accounts || account == ledger.appAddress
  }

  /**
   * `Gtxn[k].accounts[i]`: index 0 is the sender and index i >= 1 the i-th
   * referenced account of an application call; any other index aborts.
   */
  function AccountAt(t: Txn, i: nat): (r: Option<Address>)
    ensures r.Some? <==> i == 0 || (t.ApplicationCall? && i <= |t.accounts|)
  {
    if i == 0 then Some(t.sender)
    else if t.ApplicationCall? && i <= |t.accounts| then Some(t.accounts[i - 1])
    else None
  }

  /** `Gtxn[k]`: a group index past the end aborts. */
  function GroupAt(group: seq<Txn>, k: nat): (r: Option<Txn>)
    ensures r.Some? <==> k < |group|
  {
    if k < |group| then Some(group[k]) else None
  }

  // -------------------------------------------------------------- the ledger

  /**
   * What the ledger lets a program see besides its transactions: the address of
   * the running application and the asset holdings of accounts. A pair absent
   * from `holdings` is an account that has not opted in to the asset.
   */
  datatype Ledger = Ledger(appAddress: Address, holdings: map<(Address, AssetId), nat>)

  /** `AssetHolding.balance`: None when the account has not opted in (`hasValue` is 0). */
  function Holding(ledger: Ledger, account: Address, asset: AssetId): (r: Option<nat>)
    ensures r.Some? <==> (account, asset) in ledger.holdings
  {
    if (account, asset) in ledger.holdings then Some(ledger.holdings[(account, asset)]) else None
  }

  /** The two keys of the application's global state: `manager` and `ASA_id`. */
  datatype Globals = Globals(manager: Address, asaId: AssetId)

  /**
   * An inner asset transfer submitted by the application; its sender is always
   * the application's own account. `asset` is None when the program leaves
   * `xfer_asset` unset.
   */
  datatype InnerAxfer = InnerAxfer(receiver: Address, amount: nat, asset: Option<AssetId>)

  /** The assertion or access that ended a rejected evaluation. */
  datatype Failure =
    | ArgCount          // Txn.application_args.length() == Int(1)
    | AccountCount      // Txn.accounts.length() == Int(1)
    | GroupSize         // Global.group_size() == Int(2)
    | NotManager        // is_manager
    | NotPayment        // pay_in_txn.type_enum() == TxnType.Payment
    | FeeCheck          // the fee bound on pay_in_txn
    | WrongAmount       // pay_in_txn.amount() == tmpl_amount
    | WrongReceiver     // pay_in_txn.receiver() == Global.current_application_address()
    | PayerMismatch     // app_call_txn.accounts[1] == pay_in_txn.sender()
    | NoHolding         // asset_balance.hasValue()
    | AlreadyHolds      // the holding equals 0
    | ArgIndex          // Txn.application_args[0] with no arguments
    | GroupIndex        // Gtxn[1] in a group of one
    | AccountIndex      // accounts[1] with no referenced account
    | AssetUnavailable  // a holding read or xfer_asset of an asset the call does not list
    | ReceiverUnavailable // an asset_receiver the call cannot name
    | BtoiTooLong       // btoi of more than 8 bytes
    | NoClause          // no Cond clause matched

  /** The verdict: approval with the new global state and the submitted inner transfers, or rejection. */
  datatype Outcome = Approve(globals: Globals, inner: seq<InnerAxfer>) | Reject(failure: Failure)

  /** The group as the ledger hands it to an approval program: the caller is an application call in it. */
  predicate WellFormedCall(group: seq<Txn>, caller: nat)
  {
    caller < |group| && group[caller].ApplicationCall?
  }
}

/**
 * The second, independently written WizCoin program (assets/wizcoin_smart_sig.py).
 * Although named a signature, it is compiled in Application mode and reads the
 * same global state. It keeps the creation, lifecycle and `join_wizcoin`
 * clauses only, and its join checks differ from the contract's: the fee has
 * an upper bound of 1000, neither the group size nor the number of referenced
 * accounts is checked, an account that never opted in reads as holding 0, and
 * the issued transfer leaves the asset id unset.
 */
module WizcoinSig {
  import opened Wrappers
  import opened Avm

  /** Largest fee the payment may carry. */
  const MaxFee: nat := 1000

  /** The registration payment, in microAlgos. */
  const RegistrationAmount: nat := 50_000_000

  const JoinWizcoinOp: Bytes := Ascii("join_wizcoin")

  /** `is_manager`: the caller is the stored manager. */
  predicate IsManager(g: Globals, call: Txn)
  {
    call.sender == g.manager
  }

  /** `init_contract`: record the creator as manager and the single argument as the asset id. */
  function Init(call: Txn): (out: Outcome)
    requires call.ApplicationCall?
    ensures out.Approve? <==> |call.applicationArgs| == 1 && |call.applicationArgs[0]| <= 8
    ensures out.Approve? ==>
      out.globals == Globals(call.sender, BigEndian(call.applicationArgs[0])) && out.inner == []
    ensures |call.applicationArgs| != 1 ==> out == Reject(ArgCount)
  {
    if |call.applicationArgs| != 1 then Reject(ArgCount)
    else
      match Btoi(call.applicationArgs[0])
      case None => Reject(BtoiTooLong)
      case Some(id) => Approve(Globals(call.sender, id), [])
  }

  /**
   * The conditions under which this program's `join_wizcoin` approves. The
   * holding is read for the caller's first referenced account; an account
   * that has not opted in reads as 0 and passes.
   */
  predicate JoinAllowed(g: Globals, group: seq<Txn>, caller: nat, ledger: Ledger)
    requires WellFormedCall(group, caller)
  {
    var call := group[caller];
    && |call.applicationArgs| == 1
    && |group| >= 2
    && group[1].Payment?
    && group[1].fee <= MaxFee
    && group[1].amount == RegistrationAmount
    && group[1].receiver == ledger.appAddress
    && AccountAt(group[0], 1) == Some(group[1].sender)
    && |call.accounts| >= 1
    && AssetAvailable(call, g.asaId)
    && Holding(ledger, call.accounts[0], g.asaId).GetOr(0) == 0
    && AccountAvailable(call, group[1].sender, ledger)
  }

  /**
   * `join_wizcoin` of this program: the checks in the source's order, then
   * the inner transfer's `asset_receiver`, which must be an account the call
   * may name; the token transfer to the payer carries no asset id.
   */
  function JoinWizcoin(g: Globals, group: seq<Txn>, caller: nat, ledger: Ledger): (out: Outcome)
    requires WellFormedCall(group, caller)
    ensures out.Approve? <==> JoinAllowed(g, group, caller, ledger)
    ensures out.Approve? ==>
      && caller != 1
      && out.globals == g
      && out.inner == [InnerAxfer(group[1].sender, 1, None)]
    ensures out.Approve? && caller == 0 ==> Holding(ledger, group[1].sender, g.asaId) in {None, Some(0)}
    ensures |group[caller].applicationArgs| != 1 ==> out == Reject(ArgCount)
  {
    var call := group[caller];
    if |call.applicationArgs| != 1 then Reject(ArgCount)
    else
      match GroupAt(group, 1)
      case None => Reject(GroupIndex)
      case Some(pay) =>
        if !pay.Payment? then Reject(NotPayment)
        else if pay.fee > MaxFee then Reject(FeeCheck)
        else if pay.amount != RegistrationAmount then Reject(WrongAmount)
        else if pay.receiver != ledger.appAddress then Reject(WrongReceiver)
        else
          match AccountAt(group[0], 1)
          case None => Reject(AccountIndex)
          case Some(named) =>
            if named != pay.sender then Reject(PayerMismatch)
            else
              // AssetHolding.balance(Int(1), ...) reads the caller's referenced account 1
              match AccountAt(call, 1)
              case None => Reject(AccountIndex)
              case Some(account) =>
                if !AssetAvailable(call, g.asaId) then Reject(AssetUnavailable)
                else if Holding(ledger, account, g.asaId).GetOr(0) != 0 then Reject(AlreadyHolds)
                // itxn_field asset_receiver
                else if !AccountAvailable(call, pay.sender, ledger) then Reject(ReceiverUnavailable)
                else Approve(g, [InnerAxfer(pay.sender, 1, None)])
  }

  /** The program: the first five clauses of the contract's `Cond`, then `join_wizcoin` only. */
  function Evaluate(g: Globals, group: seq<Txn>, caller: nat, ledger: Ledger): (out: Outcome)
    requires WellFormedCall(group, caller)
    ensures group[caller].applicationId == 0 ==> out == Init(group[caller])
    ensures out.Approve? && group[caller].applicationId != 0 ==> out.globals == g
    ensures (group[caller].applicationId != 0 &&
             group[caller].onCompletion in {DeleteApplication, UpdateApplication}) ==>
              (out.Approve? <==> IsManager(g, group[caller]))
    ensures (group[caller].applicationId != 0 &&
             group[caller].onCompletion in {OptIn, CloseOut}) ==> out == Approve(g, [])
    ensures group[caller].applicationId != 0 && group[caller].onCompletion.NoOp? ==>
      var args := group[caller].applicationArgs;
      && (args == [] ==> out == Reject(ArgIndex))
      && (args != [] && args[0] != JoinWizcoinOp ==> out == Reject(NoClause))
      && (args != [] && args[0] == JoinWizcoinOp ==> out == JoinWizcoin(g, group, caller, ledger))
    ensures out.Approve? ==> |out.inner| <= 1
    ensures out.Approve? && out.inner != [] ==>
      && group[caller].applicationId != 0
      && group[caller].onCompletion.NoOp?
      && out.inner[0].amount == 1
      && out.inner[0].asset.None?
  {
    var call := group[caller];
    if call.applicationId == 0 then Init(call)
    else if call.onCompletion == DeleteApplication then
      if IsManager(g, call) then Approve(g, []) else Reject(NotManager)
    else if call.onCompletion == UpdateApplication then
      if IsManager(g, call) then Approve(g, []) else Reject(NotManager)
    else if call.onCompletion == OptIn then Approve(g, [])
    else if call.onCompletion == CloseOut then Approve(g, [])
    else if call.applicationArgs == [] then Reject(ArgIndex)
    else if call.applicationArgs[0] == JoinWizcoinOp then JoinWizcoin(g, group, caller, ledger)
    else Reject(NoClause)
  }

  /** The application's global state, `manager` and `ASA_id`. */
  class Application {
    var manager: Address
    var asaId: AssetId

    function State(): Globals
      reads this
    {
      Globals(manager, asaId)
    }

    /** Empty storage, before the creation call has run. */
    constructor ()
      ensures State() == Globals([], 0)
    {
      manager, asaId := [], 0;
    }

    /**
     * One run of the program for the call at `caller`; a rejected run leaves
     * the state as it was.
     */
    method Invoke(group: seq<Txn>, caller: nat, ledger: Ledger) returns (approved: bool, inner: seq<InnerAxfer>)
      requires WellFormedCall(group, caller)
      modifies this
      ensures var out := Evaluate(old(State()), group, caller, ledger);
        && approved == out.Approve?
        && (approved ==> State() == out.globals && inner == out.inner)
        && (!approved ==> State() == old(State()) && inner == [])
    {
      var call := group[caller];
      approved, inner := false, [];
      if call.applicationId == 0 {
        // init_contract
        if |call.applicationArgs| != 1 {
          return;
        }
        var previous := manager;
        manager := call.sender;
        var id := Btoi(call.applicationArgs[0]);
        if id.None? {
          manager := previous;
          return;
        }
        asaId := id.value;
        approved := true;
      } else if call.onCompletion == DeleteApplication || call.onCompletion == UpdateApplication {
        approved := call.sender == manager;
      } else if call.onCompletion == OptIn || call.onCompletion == CloseOut {
        approved := true;
      } else if call.applicationArgs == [] {
        // application_args[0] aborts
      } else if call.applicationArgs[0] == JoinWizcoinOp {
        if |call.applicationArgs| != 1 || |group| < 2 {
          return;
        }
        var pay := group[1];
        if !pay.Payment? || pay.fee > MaxFee || pay.amount != RegistrationAmount ||
           pay.receiver != ledger.appAddress {
          return;
        }
        var named := AccountAt(group[0], 1);
        if named != Some(pay.sender) || |call.accounts| == 0 || asaId !in call.foreignAssets {
          return;
        }
        var balance := Holding(ledger, call.accounts[0], asaId).GetOr(0);
        if balance != 0 {
          return;
        }
        if pay.sender != call.sender && pay.sender !in call.accounts && pay.sender != ledger.appAddress {
          return;
        }
        inner := [InnerAxfer(pay.sender, 1, None)];
        approved := true;
      }
    }
  }
}

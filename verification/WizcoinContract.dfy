/**
 * The WizCoin membership approval program (assets/wizcoin_smart_contract.py).
 *
 * `Evaluate` is the program as a function of the global state, the atomic
 * group, the caller's position in it and the ledger view: each `Assert` is a
 * guard whose failure rejects, and each branch that builds an inner
 * transaction returns a description of it. `Application` is the same program
 * over the two global-state fields it writes in place.
 */
module WizcoinContract {
  import opened Wrappers
  import opened Avm

  /** Fee the payment must at least carry: its own fee plus the inner transfer's. */
  const DoubleFee: nat := 2000

  /** The registration payment, in microAlgos. */
  const RegistrationAmount: nat := 50_000_000

  const OptInWizcoinOp: Bytes := Ascii("opt_in_wizcoin")
  const JoinWizcoinOp: Bytes := Ascii("join_wizcoin")
  const RelinquishWizcoinsOp: Bytes := Ascii("relinquish_wizcoins")

  /** `is_manager`: the caller is the stored manager. */
  predicate IsManager(g: Globals, call: Txn)
  {
    call.sender == g.manager
  }

  /**
   * `init_contract`: with exactly one argument, record the creator as manager
   * and the argument, read as a big-endian integer, as the asset id.
   */
  function Init(call: Txn): (out: Outcome)
    requires call.ApplicationCall?
    ensures out.Approve? <==> |call.applicationArgs| == 1 && |call.applicationArgs[0]| <= 8
    ensures out.Approve? ==>
      out.globals == Globals(call.sender, BigEndian(call.applicationArgs[0])) && out.inner == []
    ensures |call.applicationArgs| != 1 ==> out == Reject(ArgCount)
  {
    if |call.applicationArgs| != 1 then Reject(ArgCount)
    else
      match Btoi(call.applicationArgs[0])
      case None => Reject(BtoiTooLong)
      case Some(id) => Approve(Globals(call.sender, id), [])
  }

  /**
   * `opt_in_wizcoin`: the manager makes the application opt in to the asset
   * by a zero transfer of it to the application's own address.
   */
  function OptInWizcoin(g: Globals, call: Txn, ledger: Ledger): (out: Outcome)
    requires call.ApplicationCall?
    ensures out.Approve? <==>
      IsManager(g, call) && |call.applicationArgs| == 1 && AssetAvailable(call, g.asaId)
    ensures out.Approve? ==>
      out.globals == g && out.inner == [InnerAxfer(ledger.appAddress, 0, Some(g.asaId))]
    ensures !IsManager(g, call) ==> out == Reject(NotManager)
  {
    if !IsManager(g, call) then Reject(NotManager)
    else if |call.applicationArgs| != 1 then Reject(ArgCount)
    // setting xfer_asset to an asset the call does not list aborts
    else if !AssetAvailable(call, g.asaId) then Reject(AssetUnavailable)
    else Approve(g, [InnerAxfer(ledger.appAddress, 0, Some(g.asaId))])
  }

  /**
   * The conditions under which `relinquish_wizcoins` approves. The referenced
   * account is not required to be the application's own.
   */
  predicate RelinquishAllowed(g: Globals, call: Txn, ledger: Ledger)
    requires call.ApplicationCall?
  {
    && IsManager(g, call)
    && |call.applicationArgs| == 1
    && |call.accounts| == 1
    && AssetAvailable(call, g.asaId)
    && (call.accounts[0], g.asaId) in ledger.holdings
  }

  /**
   * `relinquish_wizcoins`: the manager has the whole holding of the referenced
   * account (meant to be the application) sent back to the manager.
   */
  function RelinquishWizcoins(g: Globals, call: Txn, ledger: Ledger): (out: Outcome)
    requires call.ApplicationCall?
    ensures out.Approve? <==> RelinquishAllowed(g, call, ledger)
    ensures out.Approve? ==>
      out.globals == g &&
      out.inner == [InnerAxfer(g.manager, ledger.holdings[(call.accounts[0], g.asaId)], Some(g.asaId))]
    ensures !IsManager(g, call) ==> out == Reject(NotManager)
  {
    if !IsManager(g, call) then Reject(NotManager)
    else if |call.applicationArgs| != 1 then Reject(ArgCount)
    else if |call.accounts| != 1 then Reject(AccountCount)
    else if !AssetAvailable(call, g.asaId) then Reject(AssetUnavailable)
    else
      // AssetHolding.balance(Int(1), ...) reads referenced account 1
      match Holding(ledger, call.accounts[0], g.asaId)
      case None => Reject(NoHolding)
      case Some(own) => Approve(g, [InnerAxfer(g.manager, own, Some(g.asaId))])
  }

  /** The nine conditions under which `join_wizcoin` approves, stated at once. */
  predicate JoinAllowed(g: Globals, group: seq<Txn>, caller: nat, ledger: Ledger)
    requires WellFormedCall(group, caller)
  {
    var call := group[caller];
    && |group| == 2
    && |call.applicationArgs| == 1
    && |call.accounts| == 1
    && group[1].Payment?
    && group[1].fee >= DoubleFee
    && group[1].amount == RegistrationAmount
    && group[1].receiver == ledger.appAddress
    && AccountAt(group[0], 1) == Some(group[1].sender)
    && AssetAvailable(call, g.asaId)
    && Holding(ledger, call.accounts[0], g.asaId) == Some(0)
  }

  /**
   * `join_wizcoin`: a group of an application call and a registration payment
   * issues one token to the payer, provided the payer has opted in to the
   * asset and holds none of it yet. The checks run in the source's order and
   * the first that fails names the rejection.
   */
  function JoinWizcoin(g: Globals, group: seq<Txn>, caller: nat, ledger: Ledger): (out: Outcome)
    requires WellFormedCall(group, caller)
    ensures out.Approve? <==> JoinAllowed(g, group, caller, ledger)
    ensures out.Approve? ==>
      && caller == 0
      && out.globals == g
      && out.inner == [InnerAxfer(group[1].sender, 1, Some(g.asaId))]
      && Holding(ledger, group[1].sender, g.asaId) == Some(0)
    ensures |group| != 2 ==> out == Reject(GroupSize)
    ensures out == Reject(AlreadyHolds) ==> Holding(ledger, group[1].sender, g.asaId).Some?
  {
    var call := group[caller];
    if |group| != 2 then Reject(GroupSize)
    else if |call.applicationArgs| != 1 then Reject(ArgCount)
    else if |call.accounts| != 1 then Reject(AccountCount)
    else
      var pay := group[1];
      if !pay.Payment? then Reject(NotPayment)
      else if pay.fee < DoubleFee then Reject(FeeCheck)
      else if pay.amount != RegistrationAmount then Reject(WrongAmount)
      else if pay.receiver != ledger.appAddress then Reject(WrongReceiver)
      else
        match AccountAt(group[0], 1)
        case None => Reject(AccountIndex)
        case Some(named) =>
          if named != pay.sender then Reject(PayerMismatch)
          else if !AssetAvailable(call, g.asaId) then Reject(AssetUnavailable)
          else
            match Holding(ledger, call.accounts[0], g.asaId)
            case None => Reject(NoHolding)
            case Some(balance) =>
              if balance != 0 then Reject(AlreadyHolds)
              else Approve(g, [InnerAxfer(pay.sender, 1, Some(g.asaId))])
  }

  /**
   * The program: the first `Cond` clause whose condition holds runs. On a
   * call with no arguments the sixth clause's `application_args[0]` aborts,
   * and a call that matches no clause aborts too.
   */
  function Evaluate(g: Globals, group: seq<Txn>, caller: nat, ledger: Ledger): (out: Outcome)
    requires WellFormedCall(group, caller)
    // creation runs init whatever the completion type; no other call writes global state
    ensures group[caller].applicationId == 0 ==> out == Init(group[caller])
    ensures out.Approve? && group[caller].applicationId != 0 ==> out.globals == g
    // lifecycle calls
    ensures (group[caller].applicationId != 0 &&
             group[caller].onCompletion in {DeleteApplication, UpdateApplication}) ==>
              (out.Approve? <==> IsManager(g, group[caller]))
    ensures (group[caller].applicationId != 0 &&
             group[caller].onCompletion in {OptIn, CloseOut}) ==> out == Approve(g, [])
    // plain calls dispatch on the first argument, by exact match
    ensures group[caller].applicationId != 0 && group[caller].onCompletion == NoOp ==>
      var args := group[caller].applicationArgs;
      && (args == [] ==> out == Reject(ArgIndex))
      && (args != [] && args[0] !in {OptInWizcoinOp, JoinWizcoinOp, RelinquishWizcoinsOp} ==>
            out == Reject(NoClause))
      && (args != [] && args[0] == OptInWizcoinOp ==> out == OptInWizcoin(g, group[caller], ledger))
      && (args != [] && args[0] == JoinWizcoinOp ==> out == JoinWizcoin(g, group, caller, ledger))
      && (args != [] && args[0] == RelinquishWizcoinsOp ==>
            out == RelinquishWizcoins(g, group[caller], ledger))
    // at most one inner transfer, only from the three operations, always of the tracked asset
    ensures out.Approve? ==> |out.inner| <= 1
    ensures out.Approve? && out.inner != [] ==>
      && group[caller].applicationId != 0
      && group[caller].onCompletion.NoOp?
      && out.inner[0].asset == Some(g.asaId)
      && AccountAvailable(group[caller], out.inner[0].receiver, ledger)
  {
    var call := group[caller];
    if call.applicationId == 0 then Init(call)
    else if call.onCompletion == DeleteApplication then
      if IsManager(g, call) then Approve(g, []) else Reject(NotManager)
    else if call.onCompletion == UpdateApplication then
      if IsManager(g, call) then Approve(g, []) else Reject(NotManager)
    else if call.onCompletion == OptIn then Approve(g, [])
    else if call.onCompletion == CloseOut then Approve(g, [])
    else if call.applicationArgs == [] then Reject(ArgIndex)
    else if call.applicationArgs[0] == OptInWizcoinOp then OptInWizcoin(g, call, ledger)
    else if call.applicationArgs[0] == JoinWizcoinOp then JoinWizcoin(g, group, caller, ledger)
    else if call.applicationArgs[0] == RelinquishWizcoinsOp then RelinquishWizcoins(g, call, ledger)
    else Reject(NoClause)
  }

  /**
   * The application's global state, `manager` and `ASA_id`, which the program
   * reads with `App.globalGet` and writes with `App.globalPut`.
   */
  class Application {
    var manager: Address
    var asaId: AssetId

    function State(): Globals
      reads this
    {
      Globals(manager, asaId)
    }

    /** Empty storage, before the creation call has run. */
    constructor ()
      ensures State() == Globals([], 0)
    {
      manager, asaId := [], 0;
    }

    /**
     * One run of the program for the call at `caller`. On approval the new
     * fields and the submitted inner transfers are those `Evaluate` gives;
     * a rejected run leaves the state as it was, since an abort discards
     * every write.
     */
    method Invoke(group: seq<Txn>, caller: nat, ledger: Ledger) returns (approved: bool, inner: seq<InnerAxfer>)
      requires WellFormedCall(group, caller)
      modifies this
      ensures var out := Evaluate(old(State()), group, caller, ledger);
        && approved == out.Approve?
        && (approved ==> State() == out.globals && inner == out.inner)
        && (!approved ==> State() == old(State()) && inner == [])
    {
      var call := group[caller];
      approved, inner := false, [];
      if call.applicationId == 0 {
        // init_contract
        if |call.applicationArgs| != 1 {
          return;
        }
        var previous := manager;
        manager := call.sender;
        var id := Btoi(call.applicationArgs[0]);
        if id.None? {
          manager := previous;
          return;
        }
        asaId := id.value;
        approved := true;
      } else if call.onCompletion == DeleteApplication || call.onCompletion == UpdateApplication {
        approved := call.sender == manager;
      } else if call.onCompletion == OptIn || call.onCompletion == CloseOut {
        approved := true;
      } else if call.applicationArgs == [] {
        // application_args[0] aborts
      } else if call.applicationArgs[0] == OptInWizcoinOp {
        if call.sender != manager || |call.applicationArgs| != 1 || asaId !in call.foreignAssets {
          return;
        }
        inner := [InnerAxfer(ledger.appAddress, 0, Some(asaId))];
        approved := true;
      } else if call.applicationArgs[0] == JoinWizcoinOp {
        if |group| != 2 || |call.applicationArgs| != 1 || |call.accounts| != 1 {
          return;
        }
        var pay := group[1];
        if !pay.Payment? || pay.fee < DoubleFee || pay.amount != RegistrationAmount ||
           pay.receiver != ledger.appAddress {
          return;
        }
        var named := AccountAt(group[0], 1);
        if named != Some(pay.sender) || asaId !in call.foreignAssets {
          return;
        }
        var balance := Holding(ledger, call.accounts[0], asaId);
        if balance != Some(0) {
          return;
        }
        inner := [InnerAxfer(pay.sender, 1, Some(asaId))];
        approved := true;
      } else if call.applicationArgs[0] == RelinquishWizcoinsOp {
        if call.sender != manager || |call.applicationArgs| != 1 || |call.accounts| != 1 ||
           asaId !in call.foreignAssets {
          return;
        }
        var own := Holding(ledger, call.accounts[0], asaId);
        if own.None? {
          return;
        }
        inner := [InnerAxfer(manager, own.value, Some(asaId))];
        approved := true;
      }
    }
  }
}

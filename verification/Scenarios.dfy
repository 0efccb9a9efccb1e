/**
 * The deployment and membership flows of the repository's tests, stated for
 * arbitrary addresses: creation with an 8-byte asset id, the contract's
 * opt-in, one join, a refused second join, the fee and amount boundaries, and
 * reclaiming the reserve.
 */
module Scenarios {
  import opened Wrappers
  import opened Avm
  import Contract = WizcoinContract
  import Sig = WizcoinSig

  /** The application call of a join, naming the member as its one account and the asset as its one foreign asset. */
  function JoinCall(member: Address, appId: nat, asa: AssetId): Txn
  {
    ApplicationCall(member, 1000, appId, NoOp, [Contract.JoinWizcoinOp], [member], [asa])
  }

  /** The registration payment of a join. */
  function JoinPayment(member: Address, app: Address, fee: nat, amount: nat): Txn
  {
    Payment(member, fee, app, amount)
  }

  /**
   * Creating the application with the asset id as its one integer argument
   * (sent as 8 big-endian bytes) stores the creator and that id.
   */
  lemma Deployment(creator: Address, asa: AssetId, g: Globals, ledger: Ledger)
    requires asa < Pow256(8)
    ensures Contract.Evaluate(g, [ApplicationCall(creator, 1000, 0, NoOp, [Itob(asa)], [], [])], 0, ledger)
              == Approve(Globals(creator, asa), [])
    ensures Sig.Evaluate(g, [ApplicationCall(creator, 1000, 0, NoOp, [Itob(asa)], [], [])], 0, ledger)
              == Approve(Globals(creator, asa), [])
  {
    BtoiItob(asa);
  }

  /** The manager's opt-in call makes the application send itself nothing of the asset. */
  lemma ManagerOptIn(g: Globals, appId: nat, ledger: Ledger)
    requires appId != 0
    ensures
      var call := ApplicationCall(g.manager, 2000, appId, NoOp, [Contract.OptInWizcoinOp], [], [g.asaId]);
      Contract.Evaluate(g, [call], 0, ledger) == Approve(g, [InnerAxfer(ledger.appAddress, 0, Some(g.asaId))])
  {
  }

  /**
   * A registered account with no token joins and receives one; once it holds
   * that token the identical group is refused.
   */
  lemma JoinOnce(g: Globals, member: Address, appId: nat, ledger: Ledger)
    requires appId != 0
    requires Holding(ledger, member, g.asaId) == Some(0)
    ensures
      var group := [JoinCall(member, appId, g.asaId), JoinPayment(member, ledger.appAddress, 2000, 50_000_000)];
      var after := Ledger(ledger.appAddress, ledger.holdings[(member, g.asaId) := 1]);
      && Contract.Evaluate(g, group, 0, ledger) == Approve(g, [InnerAxfer(member, 1, Some(g.asaId))])
      && Contract.Evaluate(g, group, 0, after) == Reject(AlreadyHolds)
  {
  }

  /** The contract's fee bound is inclusive at 2000, and the amount must be exact. */
  lemma ContractJoinBoundaries(g: Globals, member: Address, appId: nat, ledger: Ledger)
    requires appId != 0
    requires Holding(ledger, member, g.asaId) == Some(0)
    ensures
      var app := ledger.appAddress;
      && Contract.Evaluate(g, [JoinCall(member, appId, g.asaId), JoinPayment(member, app, 1999, 50_000_000)], 0, ledger)
           == Reject(FeeCheck)
      && Contract.Evaluate(g, [JoinCall(member, appId, g.asaId), JoinPayment(member, app, 2000, 50_000_000)], 0, ledger).Approve?
      && Contract.Evaluate(g, [JoinCall(member, appId, g.asaId), JoinPayment(member, app, 2000, 49_999_999)], 0, ledger)
           == Reject(WrongAmount)
      && Contract.Evaluate(g, [JoinCall(member, appId, g.asaId), JoinPayment(member, app, 2000, 50_000_001)], 0, ledger)
           == Reject(WrongAmount)
  {
  }

  /** The second program's fee bound is inclusive at 1000. */
  lemma SigJoinBoundaries(g: Globals, member: Address, appId: nat, ledger: Ledger)
    requires appId != 0
    requires Holding(ledger, member, g.asaId) == Some(0)
    ensures
      var app := ledger.appAddress;
      && Sig.Evaluate(g, [JoinCall(member, appId, g.asaId), JoinPayment(member, app, 1000, 50_000_000)], 0, ledger)
           == Approve(g, [InnerAxfer(member, 1, None)])
      && Sig.Evaluate(g, [JoinCall(member, appId, g.asaId), JoinPayment(member, app, 1001, 50_000_000)], 0, ledger)
           == Reject(FeeCheck)
  {
  }

  /**
   * A caller other than the manager is refused update, delete, opt-in and
   * relinquish, whatever else the call carries.
   */
  lemma OnlyManagerAdministers(g: Globals, group: seq<Txn>, caller: nat, ledger: Ledger)
    requires WellFormedCall(group, caller)
    requires group[caller].applicationId != 0 && group[caller].sender != g.manager
    requires
      || group[caller].onCompletion in {DeleteApplication, UpdateApplication}
      || (group[caller].onCompletion.NoOp? && group[caller].applicationArgs != [] &&
          group[caller].applicationArgs[0] in {Contract.OptInWizcoinOp, Contract.RelinquishWizcoinsOp})
    ensures Contract.Evaluate(g, group, caller, ledger).Reject?
  {
  }

  /**
   * Reclaiming the reserve: the manager names an account and its whole holding
   * goes to the manager; the account is not checked to be the application's.
   */
  lemma Relinquish(g: Globals, named: Address, appId: nat, ledger: Ledger)
    requires appId != 0
    requires (named, g.asaId) in ledger.holdings
    ensures
      var call := ApplicationCall(g.manager, 2000, appId, NoOp, [Contract.RelinquishWizcoinsOp], [named], [g.asaId]);
      Contract.Evaluate(g, [call], 0, ledger)
        == Approve(g, [InnerAxfer(g.manager, ledger.holdings[(named, g.asaId)], Some(g.asaId))])
  {
  }
}

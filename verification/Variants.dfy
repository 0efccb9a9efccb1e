/**
 * How the two WizCoin programs relate: the clauses they share behave alike,
 * the second recognises only `join_wizcoin`, and their fee bounds are
 * disjoint, so no group joins through both.
 */
module Variants {
  import opened Wrappers
  import opened Avm
  import Contract = WizcoinContract
  import Sig = WizcoinSig

  /** Creation and the four lifecycle completion types decide identically in both programs. */
  lemma SharedClausesAgree(g: Globals, group: seq<Txn>, caller: nat, ledger: Ledger)
    requires WellFormedCall(group, caller)
    requires group[caller].applicationId == 0 || !group[caller].onCompletion.NoOp?
    ensures Sig.Evaluate(g, group, caller, ledger) == Contract.Evaluate(g, group, caller, ledger)
  {
  }

  /** The contract's two manager operations are unknown to the second program. */
  lemma SigRejectsManagerOps(g: Globals, group: seq<Txn>, caller: nat, ledger: Ledger)
    requires WellFormedCall(group, caller)
    requires group[caller].applicationId != 0 && group[caller].onCompletion.NoOp?
    requires group[caller].applicationArgs != []
    requires group[caller].applicationArgs[0] in {Contract.OptInWizcoinOp, Contract.RelinquishWizcoinsOp}
    ensures Sig.Evaluate(g, group, caller, ledger) == Reject(NoClause)
  {
  }

  /**
   * A join the contract approves pays a fee of at least 2000, over the second
   * program's bound of 1000, so the second program refuses the same call.
   */
  lemma NoJoinThroughBoth(g: Globals, group: seq<Txn>, caller: nat, ledger: Ledger)
    requires WellFormedCall(group, caller)
    requires group[caller].applicationId != 0 && group[caller].onCompletion.NoOp?
    requires group[caller].applicationArgs != [] && group[caller].applicationArgs[0] == Contract.JoinWizcoinOp
    requires Contract.Evaluate(g, group, caller, ledger).Approve?
    ensures Sig.Evaluate(g, group, caller, ledger) == Reject(FeeCheck)
  {
  }

  /**
   * The second program approves a join the contract refuses: a group of
   * three, a call naming two accounts, and a payer that never opted in.
   */
  lemma SigAcceptsLooseJoin(app: Address, payer: Address, other: Address, g: Globals)
    requires app != payer
    ensures
      var ledger := Ledger(app, map[]);
      var call := ApplicationCall(payer, 1000, 7, NoOp, [Contract.JoinWizcoinOp], [payer, other], [g.asaId]);
      var group := [call, Payment(payer, 1000, app, 50_000_000), Payment(payer, 1000, other, 0)];
      && Sig.Evaluate(g, group, 0, ledger) == Approve(g, [InnerAxfer(payer, 1, None)])
      && Contract.Evaluate(g, group, 0, ledger) == Reject(GroupSize)
  {
  }

  /**
   * The second program checks the payer against the FIRST transaction's
   * account but reads the holding of the CALLER's account. With a call to
   * another application first and this program's call third, naming an
   * account with no token before the payer, every check passes and a 1-unit
   * transfer is submitted to a payer who already holds one.
   */
  lemma SigIssuesToHolder(app: Address, payer: Address, other: Address, g: Globals)
    requires app != payer && payer != other
    ensures
      var ledger := Ledger(app, map[(payer, g.asaId) := 1, (other, g.asaId) := 0]);
      var group := [ApplicationCall(payer, 1000, 8, NoOp, [], [payer], []),
                    Payment(payer, 1000, app, 50_000_000),
                    ApplicationCall(other, 1000, 7, NoOp, [Contract.JoinWizcoinOp], [other, payer], [g.asaId])];
      && Holding(ledger, payer, g.asaId) == Some(1)
      && Sig.Evaluate(g, group, 2, ledger) == Approve(g, [InnerAxfer(payer, 1, None)])
      && Contract.Evaluate(g, group, 2, ledger) == Reject(GroupSize)
  {
  }

  /**
   * The inner transfer's receiver must be an account the call may name: the
   * same shape with the payer missing from the caller's accounts aborts at
   * `asset_receiver`.
   */
  lemma SigReceiverMustBeNameable(app: Address, payer: Address, other: Address, g: Globals)
    requires app != payer && payer != other
    ensures
      var ledger := Ledger(app, map[(payer, g.asaId) := 1, (other, g.asaId) := 0]);
      var group := [ApplicationCall(payer, 1000, 8, NoOp, [], [payer], []),
                    Payment(payer, 1000, app, 50_000_000),
                    ApplicationCall(other, 1000, 7, NoOp, [Contract.JoinWizcoinOp], [other], [g.asaId])];
      Sig.Evaluate(g, group, 2, ledger) == Reject(ReceiverUnavailable)
  {
  }
}

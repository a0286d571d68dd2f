/** `ProposalVote` of `proposal_vote.rs`: one vote, with the power the caller claims for it. */
module ProposalVotes {
  import opened Ledger

  datatype ProposalVote = ProposalVote(
    id: string,
    optionId: string,
    entity: ComponentAddress,
    power: Decimal,
    created: string,
    additionalData: map<string, string>)

  /**
   * `ProposalVote::new`: every argument is stored as given. Nothing checks that
   * `optionId` names an option of the proposal or that `power` is non-negative.
   */
  function New(id: string, optionId: string, entity: ComponentAddress, power: Decimal, created: string,
               additionalData: map<string, string>): (r: ProposalVote)
    ensures r.id == id && r.optionId == optionId && r.entity == entity
    ensures r.power == power && r.created == created && r.additionalData == additionalData
  {
    ProposalVote(id, optionId, entity, power, created, additionalData)
  }
}

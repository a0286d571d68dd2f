/** `ProposalOption` of `proposal_option.rs`: one option of a proposal, as the caller describes it. */
module ProposalOptions {
  import opened Ledger

  datatype ProposalOption = ProposalOption(
    id: string,
    rank: uint32,
    option: string,
    additionalData: map<string, string>)

  /** `ProposalOption::new`: every argument is stored as given; rank is neither range- nor uniqueness-checked. */
  function New(id: string, rank: uint32, option: string, additionalData: map<string, string>): (r: ProposalOption)
    ensures r.id == id && r.rank == rank && r.option == option && r.additionalData == additionalData
  {
    ProposalOption(id, rank, option, additionalData)
  }
}

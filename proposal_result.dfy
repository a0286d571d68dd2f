/** `ProposalResult` of `proposal_result.rs`: a result computed by the caller and stored as given. */
module ProposalResults {
  import opened Ledger

  datatype ProposalResult = ProposalResult(
    voteCount: uint32,
    votePower: Decimal,
    results: map<string, Decimal>,
    additionalData: map<string, string>)

  /**
   * `ProposalResult::new`: every argument is stored as given; the per-option
   * `results` need not add up to `votePower`, nor `voteCount` match any vote list.
   */
  function New(voteCount: uint32, votePower: Decimal, results: map<string, Decimal>,
               additionalData: map<string, string>): (r: ProposalResult)
    ensures r.voteCount == voteCount && r.votePower == votePower
    ensures r.results == results && r.additionalData == additionalData
  {
    ProposalResult(voteCount, votePower, results, additionalData)
  }
}

/** `ProposalResultOption` of `proposal_result_option.rs`: one option's share of a result. */
module ProposalResultOptions {
  import opened Ledger

  datatype ProposalResultOption = ProposalResultOption(
    optionId: string,
    optionName: string,
    share: Decimal,
    additionalData: map<string, string>,
    additionalDataVec: map<string, seq<string>>)

  /** `ProposalResultOption::new`: id, name and share as given (share not bounded); both extension maps empty. */
  function New(optionId: string, optionName: string, share: Decimal): (r: ProposalResultOption)
    ensures r.optionId == optionId && r.optionName == optionName && r.share == share
    ensures r.additionalData == map[] && r.additionalDataVec == map[]
  {
    ProposalResultOption(optionId, optionName, share, map[], map[])
  }
}

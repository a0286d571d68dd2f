/**
 * The `DaoHoard` blueprint of `lib.rs`: a registry of DAO records (a
 * resource manager of string non-fungibles keyed by the normalised DAO id),
 * a vault collecting proposal-creation fees, and the entry points that
 * forward proposal edits to the proposal store of the DAO they name.
 */
module DaoHoard {
  import opened Wrappers
  import opened Ledger
  import Utils
  import Proposals
  import ProposalOptions
  import ProposalVotes
  import ProposalResults

  const VERSION: uint32 := 1
  const DAO_COMPONENT_TYPE: string := "CrumbsUpDao"

  datatype Dao = Dao(
    daoId: string,
    componentType: string,
    version: uint32,
    name: string,
    description: string,
    infoUrl: Url,
    keyImageUrl: Url,
    daoType: string,
    resourceAddress: string,
    about: string,
    general: string,
    created: string,
    rules: seq<string>,
    additionalData: map<string, string>,
    proposals: Proposals.ProposalStore)

  /**
   * The record `dao_create` mints: `description` starts as a copy of `about`,
   * the component type and version are fixed.
   */
  function NewDao(daoId: string, name: string, infoUrl: Url, keyImageUrl: Url, daoType: string,
                  resourceAddress: string, about: string, general: string, created: string,
                  rules: seq<string>, additionalData: map<string, string>,
                  proposals: Proposals.ProposalStore): (d: Dao)
    ensures d.daoId == daoId && d.componentType == "CrumbsUpDao" && d.version == 1
    ensures d.name == name && d.description == about && d.about == about
    ensures d.infoUrl == infoUrl && d.keyImageUrl == keyImageUrl && d.daoType == daoType
    ensures d.resourceAddress == resourceAddress && d.general == general && d.created == created
    ensures d.rules == rules && d.additionalData == additionalData && d.proposals == proposals
  {
    Dao(daoId, DAO_COMPONENT_TYPE, VERSION, name, about, infoUrl, keyImageUrl, daoType,
        resourceAddress, about, general, created, rules, additionalData, proposals)
  }

  class DaoHoard {
    var daos: map<string, Dao>          // the DAO resource manager, by normalised id
    var crumbFees: nat                  // the `crumb_fees` vault, in attos
    var proposalCreationPrice: Decimal

    /** Every DAO owns its own proposal store. */
    ghost predicate Valid()
      reads this
    {
      forall k1, k2 :: k1 in daos && k2 in daos && k1 != k2 ==> daos[k1].proposals != daos[k2].proposals
    }

    ghost function Stores(): set<Proposals.ProposalStore>
      reads this
    {
      set k | k in daos :: daos[k].proposals
    }

    /** `dao_hoard_instantiate`, without its roles and metadata. */
    constructor (proposalCreationPrice: Decimal)
      ensures Valid()
      ensures daos == map[] && crumbFees == 0 && this.proposalCreationPrice == proposalCreationPrice
    {
      daos := map[];
      crumbFees := 0;
      this.proposalCreationPrice := proposalCreationPrice;
    }

    /** `dao_hoard_set_proposal_creation_price`: the price changes, nothing else does. */
    method SetProposalCreationPrice(price: Decimal)
      modifies this`proposalCreationPrice
      ensures proposalCreationPrice == price
      ensures daos == old(daos) && crumbFees == old(crumbFees)
    {
      proposalCreationPrice := price;
    }

    /** `dao_hoard_withdraw_crumb_fees`: the whole vault is handed out and left empty. */
    method WithdrawCrumbFees() returns (withdrawn: nat)
      modifies this`crumbFees
      ensures withdrawn == old(crumbFees) && crumbFees == 0
      ensures daos == old(daos) && proposalCreationPrice == old(proposalCreationPrice)
    {
      withdrawn := crumbFees;
      crumbFees := 0;
    }

    /** `get_dao`: the record under the normalised id; aborts on an invalid or unknown id. */
    function GetDao(daoId: string): (r: Result<Dao, Error>)
      reads this
      ensures r.Success? <==> Utils.CreateNonFungibleIdOfUuid(daoId).Success? && Utils.ReplaceHyphens(daoId) in daos
      ensures r.Success? ==> r.value == daos[Utils.ReplaceHyphens(daoId)]
      ensures r.Failure? ==> r.error == (if Utils.CreateNonFungibleIdOfUuid(daoId).Failure?
                                         then Utils.CreateNonFungibleIdOfUuid(daoId).error
                                         else NonFungibleNotFound(Utils.ReplaceHyphens(daoId)))
    {
      var key :- Utils.CreateNonFungibleIdOfUuid(daoId);
      if key in daos then Success(daos[key]) else Failure(NonFungibleNotFound(key))
    }

    /**
     * `dao_create`: mints a new DAO record, with a fresh empty proposal store,
     * under the normalised id; aborts if the id is invalid or already taken.
     * Returns the local id of the minted DAO.
     */
    method DaoCreate(daoId: string, name: string, infoUrl: Url, keyImageUrl: Url, daoType: string,
                     resourceAddress: string, about: string, general: string, created: string,
                     rules: seq<string>, additionalData: map<string, string>) returns (r: Result<string, Error>)
      requires Valid()
      modifies this`daos
      ensures Valid()
      ensures r.Success? <==> Utils.CreateNonFungibleIdOfUuid(daoId).Success? && Utils.ReplaceHyphens(daoId) !in old(daos)
      ensures r.Failure? ==> daos == old(daos)
      ensures r.Failure? ==> r.error == (if Utils.CreateNonFungibleIdOfUuid(daoId).Failure?
                                         then Utils.CreateNonFungibleIdOfUuid(daoId).error
                                         else NonFungibleExists(Utils.ReplaceHyphens(daoId)))
      ensures r.Success? ==>
                && r.value == Utils.ReplaceHyphens(daoId)
                && daos.Keys == old(daos).Keys + {r.value}
                && (forall k :: k in old(daos) ==> daos[k] == old(daos)[k])
                && var store := daos[r.value].proposals;
                   && fresh(store) && store.proposals == map[]
                   && daos[r.value] == NewDao(daoId, name, infoUrl, keyImageUrl, daoType, resourceAddress,
                                              about, general, created, rules, additionalData, store)
    {
      var id := Utils.CreateNonFungibleIdOfUuid(daoId);
      if id.Failure? {
        return Failure(id.error);
      }
      var key := id.value;
      var store := new Proposals.ProposalStore();
      var dao := NewDao(daoId, name, infoUrl, keyImageUrl, daoType, resourceAddress, about, general,
                        created, rules, additionalData, store);
      if key in daos {
        return Failure(NonFungibleExists(key));
      }
      daos := daos[key := dao];
      r := Success(key);
    }

    /**
     * `dao_update`: nine field updates of the named DAO. Exactly name,
     * info_url, key_image_url, dao_type, resource_address, about, general,
     * rules and additional_data are overwritten; description, created and the
     * rest keep their values. Aborts, changing nothing, on an invalid or
     * unknown id. No credential is asked for.
     */
    method DaoUpdate(daoId: string, name: string, infoUrl: Url, keyImageUrl: Url, daoType: string,
                     resourceAddress: string, about: string, general: string, rules: seq<string>,
                     additionalData: map<string, string>) returns (r: Outcome<Error>)
      requires Valid()
      modifies this`daos
      ensures Valid()
      ensures r.Pass? <==> old(GetDao(daoId)).Success?
      ensures r.Fail? ==> r == Fail(old(GetDao(daoId)).error) && daos == old(daos)
      ensures r.Pass? ==>
                var key := Utils.ReplaceHyphens(daoId);
                daos == old(daos)[key := old(daos)[key].(name := name, infoUrl := infoUrl, keyImageUrl := keyImageUrl,
                                                         daoType := daoType, resourceAddress := resourceAddress,
                                                         about := about, general := general, rules := rules,
                                                         additionalData := additionalData)]
    {
      var id := Utils.CreateNonFungibleIdOfUuid(daoId);
      if id.Failure? {
        return Fail(id.error);
      }
      var key := id.value;
      // The first update_non_fungible_data aborts on a missing record; the
      // nine updates then rewrite one `#[mutable]` field each.
      if key !in daos {
        return Fail(NonFungibleNotFound(key));
      }
      var dao := daos[key];
      dao := dao.(name := name);
      dao := dao.(infoUrl := infoUrl);
      dao := dao.(keyImageUrl := keyImageUrl);
      dao := dao.(daoType := daoType);
      dao := dao.(resourceAddress := resourceAddress);
      dao := dao.(about := about);
      dao := dao.(general := general);
      dao := dao.(rules := rules);
      dao := dao.(additionalData := additionalData);
      daos := daos[key := dao];
      r := Pass;
    }

    /**
     * `dao_add_proposal`: takes exactly the proposal-creation price out of the
     * payment into the fee vault and returns the rest, and mints the new
     * proposal, carrying the DAO's key image, into that DAO's proposal store.
     * Aborts, keeping no fee and changing no store, if the payment is short,
     * the price negative, an id invalid, the DAO unknown or the proposal id
     * taken. Returns the proposal's local id and the change.
     */
    method DaoAddProposal(payment: nat, daoId: string, proposalId: string, title: string, pAbstract: string,
                          specification: string, votingStart: string, votingEnd: string, created: string,
                          infoUrl: Url, additionalData: map<string, string>) returns (r: Result<(string, nat), Error>)
      requires Valid()
      modifies this`crumbFees, Stores()
      ensures Valid()
      ensures daos == old(daos) && proposalCreationPrice == old(proposalCreationPrice)
      ensures r.Success? <==>
                && 0 <= proposalCreationPrice <= payment
                && Utils.CreateNonFungibleIdOfUuid(proposalId).Success?
                && GetDao(daoId).Success?
                && Utils.ReplaceHyphens(proposalId) !in old(GetDao(daoId).value.proposals.proposals)
      ensures r.Failure? ==> crumbFees == old(crumbFees)
      ensures r.Success? ==>
                && crumbFees == old(crumbFees) + proposalCreationPrice
                && r.value.1 == payment - proposalCreationPrice
                && crumbFees + r.value.1 == old(crumbFees) + payment
      ensures r.Success? ==>
                var dao := GetDao(daoId).value;
                && r.value.0 == Utils.ReplaceHyphens(proposalId)
                && dao.proposals.proposals == old(dao.proposals.proposals)[r.value.0 :=
                     Proposals.CreateProposal(proposalId, title, pAbstract, specification, votingStart, votingEnd,
                                              created, infoUrl, dao.keyImageUrl, additionalData)]
      ensures forall k :: k in daos && (r.Failure? || k != Utils.ReplaceHyphens(daoId)) ==>
                daos[k].proposals.proposals == old(daos[k].proposals.proposals)
    {
      // `payment.take(price)`; the fee goes into the vault only once nothing
      // else can abort, which is what the reverted transaction amounts to.
      if proposalCreationPrice < 0 {
        return Failure(InvalidAmount(proposalCreationPrice));
      }
      if payment < proposalCreationPrice {
        return Failure(InsufficientBalance(proposalCreationPrice, payment));
      }
      var change: nat := payment - proposalCreationPrice;
      var id := Utils.CreateNonFungibleIdOfUuid(proposalId);
      if id.Failure? {
        return Failure(id.error);
      }
      var localId := id.value;
      var found := GetDao(daoId);
      if found.Failure? {
        return Failure(found.error);
      }
      var dao := found.value;
      var proposal := Proposals.CreateProposal(proposalId, title, pAbstract, specification, votingStart, votingEnd,
                                               created, infoUrl, dao.keyImageUrl, additionalData);
      var minted := dao.proposals.Mint(localId, proposal);
      if minted.Fail? {
        return Failure(minted.error);
      }
      crumbFees := crumbFees + proposalCreationPrice;
      r := Success((localId, change));
    }

    /** `proposal_add_option`: `add_option` on the proposal store of the DAO named, and on no other. */
    method ProposalAddOption(daoId: string, proposalId: string, optionId: string, rank: uint32, option: string,
                             additionalData: map<string, string>) returns (r: Outcome<Error>)
      requires Valid()
      modifies Stores()
      ensures Valid()
      ensures GetDao(daoId).Failure? ==> r == Fail(GetDao(daoId).error)
      ensures GetDao(daoId).Success? ==>
                var store := GetDao(daoId).value.proposals;
                Proposals.Commits(Proposals.ChangeIn(old(store.proposals), proposalId,
                                                     Proposals.PushOption(ProposalOptions.New(optionId, rank, option, additionalData))),
                                  r, old(store.proposals), store.proposals)
      ensures forall k :: k in daos && (GetDao(daoId).Failure? || k != Utils.ReplaceHyphens(daoId)) ==>
                daos[k].proposals.proposals == old(daos[k].proposals.proposals)
    {
      var found := GetDao(daoId);
      if found.Failure? {
        return Fail(found.error);
      }
      r := found.value.proposals.AddOption(proposalId, optionId, rank, option, additionalData);
    }

    /** `proposal_add_vote`: `add_vote`, with the caller's power, on the proposal store of the DAO named only. */
    method ProposalAddVote(daoId: string, proposalId: string, voteId: string, optionId: string, entity: ComponentAddress,
                           power: Decimal, created: string, additionalData: map<string, string>) returns (r: Outcome<Error>)
      requires Valid()
      modifies Stores()
      ensures Valid()
      ensures GetDao(daoId).Failure? ==> r == Fail(GetDao(daoId).error)
      ensures GetDao(daoId).Success? ==>
                var store := GetDao(daoId).value.proposals;
                Proposals.Commits(Proposals.ChangeIn(old(store.proposals), proposalId,
                                                     Proposals.PushVote(ProposalVotes.New(voteId, optionId, entity, power, created, additionalData))),
                                  r, old(store.proposals), store.proposals)
      ensures forall k :: k in daos && (GetDao(daoId).Failure? || k != Utils.ReplaceHyphens(daoId)) ==>
                daos[k].proposals.proposals == old(daos[k].proposals.proposals)
    {
      var found := GetDao(daoId);
      if found.Failure? {
        return Fail(found.error);
      }
      r := found.value.proposals.AddVote(proposalId, voteId, optionId, entity, power, created, additionalData);
    }

    /** `proposal_add_result`: `add_result`, with the caller's figures, on the proposal store of the DAO named only. */
    method ProposalAddResult(daoId: string, proposalId: string, voteCount: uint32, votePower: Decimal,
                             results: map<string, Decimal>, additionalData: map<string, string>) returns (r: Outcome<Error>)
      requires Valid()
      modifies Stores()
      ensures Valid()
      ensures GetDao(daoId).Failure? ==> r == Fail(GetDao(daoId).error)
      ensures GetDao(daoId).Success? ==>
                var store := GetDao(daoId).value.proposals;
                Proposals.Commits(Proposals.ChangeIn(old(store.proposals), proposalId,
                                                     Proposals.SetResult(ProposalResults.New(voteCount, votePower, results, additionalData))),
                                  r, old(store.proposals), store.proposals)
      ensures forall k :: k in daos && (GetDao(daoId).Failure? || k != Utils.ReplaceHyphens(daoId)) ==>
                daos[k].proposals.proposals == old(daos[k].proposals.proposals)
    {
      var found := GetDao(daoId);
      if found.Failure? {
        return Fail(found.error);
      }
      r := found.value.proposals.AddResult(proposalId, voteCount, votePower, results, additionalData);
    }
  }
}

/**
 * `dao.rs`: the module-level DAO record and its create/update/get functions
 * over a DAO resource manager. This variant is not declared in the crate's
 * module list and is modelled on its own; unlike `lib.rs` it records the
 * creation epoch, a governance resource address and a key-to-list extension map.
 */
module Daos {
  import opened Wrappers
  import opened Ledger
  import Utils
  import ProposalStores = Proposals

  const VERSION: uint32 := 1
  const DAO_COMPONENT_TYPE: string := "CrumbsUpDao"

  datatype Dao = Dao(
    daoId: string,
    componentType: string,
    version: uint32,
    name: string,
    description: string,
    infoUrl: Url,
    keyImageUrl: Url,
    daoType: string,
    governanceResource: ResourceAddress,
    about: string,
    general: string,
    created: string,
    createdEpoch: Epoch,
    rules: seq<string>,
    additionalData: map<string, string>,
    additionalDataVec: map<string, seq<string>>,
    proposals: ProposalStores.ProposalStore)
  {
    // The accessors of `dao.rs`: each hands out the stored field.
    function Name(): (r: string)
      ensures r == name
    {
      name
    }

    function Proposals(): (r: ProposalStores.ProposalStore)
      ensures r == proposals
    {
      proposals
    }

    function DaoType(): (r: string)
      ensures r == daoType
    {
      daoType
    }

    function GovernanceResource(): (r: ResourceAddress)
      ensures r == governanceResource
    {
      governanceResource
    }

    function KeyImageUrl(): (r: Url)
      ensures r == keyImageUrl
    {
      keyImageUrl
    }
  }

  /**
   * The record `create` mints: `description` starts as a copy of `about`,
   * component type and version are fixed, the creation epoch is the current
   * one and the key-to-list extension map starts empty.
   */
  function NewDao(daoId: string, name: string, infoUrl: Url, keyImageUrl: Url, daoType: string,
                  governanceResource: ResourceAddress, about: string, general: string, created: string,
                  currentEpoch: Epoch, rules: seq<string>, additionalData: map<string, string>,
                  proposals: ProposalStores.ProposalStore): (d: Dao)
    ensures d.daoId == daoId && d.componentType == "CrumbsUpDao" && d.version == 1
    ensures d.name == name && d.description == about && d.about == about
    ensures d.infoUrl == infoUrl && d.keyImageUrl == keyImageUrl && d.daoType == daoType
    ensures d.governanceResource == governanceResource && d.general == general && d.created == created
    ensures d.createdEpoch == currentEpoch && d.additionalDataVec == map[]
    ensures d.rules == rules && d.additionalData == additionalData && d.proposals == proposals
  {
    Dao(daoId, DAO_COMPONENT_TYPE, VERSION, name, about, infoUrl, keyImageUrl, daoType, governanceResource,
        about, general, created, currentEpoch, rules, additionalData, map[], proposals)
  }

  /** A DAO resource manager: the DAO records it holds, by normalised id. */
  class DaoResourceManager {
    var daos: map<string, Dao>

    constructor ()
      ensures daos == map[]
    {
      daos := map[];
    }

    /** `get`: the record under the normalised id; aborts on an invalid or unknown id. */
    function Get(daoId: string): (r: Result<Dao, Error>)
      reads this
      ensures r.Success? <==> Utils.CreateNonFungibleIdOfUuid(daoId).Success? && Utils.ReplaceHyphens(daoId) in daos
      ensures r.Success? ==> r.value == daos[Utils.ReplaceHyphens(daoId)]
      ensures r.Failure? ==> r.error == (if Utils.CreateNonFungibleIdOfUuid(daoId).Failure?
                                         then Utils.CreateNonFungibleIdOfUuid(daoId).error
                                         else NonFungibleNotFound(Utils.ReplaceHyphens(daoId)))
    {
      var key :- Utils.CreateNonFungibleIdOfUuid(daoId);
      if key in daos then Success(daos[key]) else Failure(NonFungibleNotFound(key))
    }

    /**
     * `create`: builds the record with a fresh, empty proposal store and the
     * current epoch, and mints it under the normalised id; aborts if the id is
     * invalid or already taken. Returns the local id of the minted DAO.
     */
    method Create(daoId: string, name: string, infoUrl: Url, keyImageUrl: Url, daoType: string,
                  governanceResource: ResourceAddress, about: string, general: string, created: string,
                  rules: seq<string>, additionalData: map<string, string>, currentEpoch: Epoch)
      returns (r: Result<string, Error>)
      modifies this
      ensures r.Success? <==> Utils.CreateNonFungibleIdOfUuid(daoId).Success? && Utils.ReplaceHyphens(daoId) !in old(daos)
      ensures r.Failure? ==> daos == old(daos)
      ensures r.Failure? ==> r.error == (if Utils.CreateNonFungibleIdOfUuid(daoId).Failure?
                                         then Utils.CreateNonFungibleIdOfUuid(daoId).error
                                         else NonFungibleExists(Utils.ReplaceHyphens(daoId)))
      ensures r.Success? ==>
                && r.value == Utils.ReplaceHyphens(daoId)
                && daos.Keys == old(daos).Keys + {r.value}
                && (forall k :: k in old(daos) ==> daos[k] == old(daos)[k])
                && var store := daos[r.value].proposals;
                   && fresh(store) && store.proposals == map[]
                   && daos[r.value] == NewDao(daoId, name, infoUrl, keyImageUrl, daoType, governanceResource, about,
                                              general, created, currentEpoch, rules, additionalData, store)
    {
      var store := new ProposalStores.ProposalStore();
      var dao := NewDao(daoId, name, infoUrl, keyImageUrl, daoType, governanceResource, about, general,
                        created, currentEpoch, rules, additionalData, store);
      var id := Utils.CreateNonFungibleIdOfUuid(daoId);
      if id.Failure? {
        return Failure(id.error);
      }
      var key := id.value;
      if key in daos {
        return Failure(NonFungibleExists(key));
      }
      daos := daos[key := dao];
      r := Success(key);
    }

    /**
     * `update`: nine field updates of the named DAO. Exactly name, info_url,
     * key_image_url, dao_type, governance_resource, about, general, rules and
     * additional_data are overwritten; the id, component type, version,
     * description, creation time and epoch, key-to-list map and proposal
     * store keep their values, and `get` then returns the new values. Aborts,
     * changing nothing, on an invalid or unknown id.
     */
    method Update(daoId: string, name: string, infoUrl: Url, keyImageUrl: Url, daoType: string,
                  governanceResource: ResourceAddress, about: string, general: string, rules: seq<string>,
                  additionalData: map<string, string>) returns (r: Outcome<Error>)
      modifies this
      ensures r.Pass? <==> old(Get(daoId)).Success?
      ensures r.Fail? ==> r == Fail(old(Get(daoId)).error) && daos == old(daos)
      ensures r.Pass? ==>
                var key := Utils.ReplaceHyphens(daoId);
                daos == old(daos)[key := old(daos)[key].(name := name, infoUrl := infoUrl, keyImageUrl := keyImageUrl,
                                                         daoType := daoType, governanceResource := governanceResource,
                                                         about := about, general := general, rules := rules,
                                                         additionalData := additionalData)]
      ensures r.Pass? ==>
                && Get(daoId).Success?
                && var d := Get(daoId).value;
                   && d.Name() == name && d.DaoType() == daoType && d.GovernanceResource() == governanceResource
                   && d.KeyImageUrl() == keyImageUrl && d.Proposals() == old(Get(daoId)).value.Proposals()
    {
      var id := Utils.CreateNonFungibleIdOfUuid(daoId);
      if id.Failure? {
        return Fail(id.error);
      }
      var key := id.value;
      // The first update_non_fungible_data aborts on a missing record; the
      // nine updates then rewrite one `#[mutable]` field each.
      if key !in daos {
        return Fail(NonFungibleNotFound(key));
      }
      var dao := daos[key];
      dao := dao.(name := name);
      dao := dao.(infoUrl := infoUrl);
      dao := dao.(keyImageUrl := keyImageUrl);
      dao := dao.(daoType := daoType);
      dao := dao.(governanceResource := governanceResource);
      dao := dao.(about := about);
      dao := dao.(general := general);
      dao := dao.(rules := rules);
      dao := dao.(additionalData := additionalData);
      daos := daos[key := dao];
      r := Pass;
    }
  }
}

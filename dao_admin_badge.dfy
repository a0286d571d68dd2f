/**
 * `dao_admin_badge.rs`: the admin badge minted for a DAO and the check that a
 * presented proof holds an admin badge of a given DAO.
 */
module DaoAdminBadges {
  import opened Wrappers
  import opened Ledger

  const BADGE_INFO_URL: Url := "https://crumbsup.io"
  const BADGE_KEY_IMAGE_URL: Url := "https://arweave.net/RkZVcWWW0KzhzNggBXsz54T3tMDlerRwMDaobNSIPgk"
  const NOT_ADMIN_BADGES_MESSAGE: string := "NFTs are no DAO Admin Badges"
  const NOT_ADMIN_MESSAGE: string := "You are not an admin of this DAO"

  /** Only `daoId` is immutable; the other fields are `#[mutable]` in the ledger. */
  datatype DaoAdminBadge = DaoAdminBadge(
    daoId: string,
    name: string,
    description: string,
    infoUrl: Url,
    keyImageUrl: Url,
    additionalData: map<string, string>,
    additionalDataVec: map<string, seq<string>>)
  {
    function DaoId(): (r: string)
      ensures r == daoId
    {
      daoId
    }
  }

  /** The badge data `mint` builds for the DAO `daoId` named `daoName`. */
  function NewBadge(daoId: string, daoName: string): (b: DaoAdminBadge)
    ensures b.DaoId() == daoId
    ensures b.name == daoName + " Admin Badge"
    ensures b.description == "This Admin Badge allows you to administrate the DAO " + daoName + "."
    ensures b.infoUrl == "https://crumbsup.io"
    ensures b.keyImageUrl == "https://arweave.net/RkZVcWWW0KzhzNggBXsz54T3tMDlerRwMDaobNSIPgk"
    ensures b.additionalData == map[] && b.additionalDataVec == map[]
  {
    DaoAdminBadge(daoId, daoName + " Admin Badge",
                  "This Admin Badge allows you to administrate the DAO " + daoName + ".",
                  BADGE_INFO_URL, BADGE_KEY_IMAGE_URL, map[], map[])
  }

  /** A proof presented by a caller: the resource it is of and the badges it shows. */
  datatype Proof = Proof(resource: ResourceAddress, nonFungibles: seq<DaoAdminBadge>)

  /** The admin badge resource manager: the badges it has minted, by RUID local id. */
  class DaoAdminBadgeManager {
    const address: ResourceAddress
    var badges: map<string, DaoAdminBadge>

    constructor (address: ResourceAddress)
      ensures this.address == address && badges == map[]
    {
      this.address := address;
      badges := map[];
    }

    /**
     * `mint`: mints one badge for the DAO under a new RUID local id. The RUID
     * is chosen by the ledger; it is a parameter here and the ledger
     * guarantees it is not yet taken.
     */
    method Mint(daoId: string, daoName: string, ruid: string) returns (minted: (string, DaoAdminBadge))
      requires ruid !in badges
      modifies this
      ensures minted == (ruid, NewBadge(daoId, daoName))
      ensures badges == old(badges)[ruid := NewBadge(daoId, daoName)]
    {
      var badge := NewBadge(daoId, daoName);
      badges := badges[ruid := badge];
      minted := (ruid, badge);
    }
  }

  /** Whether any of the shown badges names the DAO `daoId` (the `iter().any` scan). */
  function AnyAdminOf(badges: seq<DaoAdminBadge>, daoId: string): (r: bool)
    ensures r <==> exists i :: 0 <= i < |badges| && badges[i].DaoId() == daoId
  {
    if badges == [] then false
    else badges[0].DaoId() == daoId || AnyAdminOf(badges[1..], daoId)
  }

  /**
   * `check_is_dao_admin`: passes exactly when the proof is of the admin badge
   * resource and shows a badge whose DAO id is `daoId`; otherwise aborts with
   * the wrong-resource message first, then the not-an-admin message.
   */
  function CheckIsDaoAdmin(managerAddress: ResourceAddress, proof: Proof, daoId: string): (r: Outcome<Error>)
    ensures r.Pass? <==> proof.resource == managerAddress &&
                         exists i :: 0 <= i < |proof.nonFungibles| && proof.nonFungibles[i].DaoId() == daoId
    ensures proof.resource != managerAddress ==> r == Fail(AssertionFailed("NFTs are no DAO Admin Badges"))
    ensures proof.resource == managerAddress && r.Fail? ==> r == Fail(AssertionFailed("You are not an admin of this DAO"))
    ensures proof.nonFungibles == [] ==> r.Fail?
  {
    if proof.resource != managerAddress then Fail(AssertionFailed(NOT_ADMIN_BADGES_MESSAGE))
    else if AnyAdminOf(proof.nonFungibles, daoId) then Pass
    else Fail(AssertionFailed(NOT_ADMIN_MESSAGE))
  }

  /** The badge minted for a DAO admits its holder to that DAO, and to no other. */
  lemma MintedBadgeAdmitsOnlyItsDao(managerAddress: ResourceAddress, daoId: string, daoName: string, otherDaoId: string)
    ensures CheckIsDaoAdmin(managerAddress, Proof(managerAddress, [NewBadge(daoId, daoName)]), otherDaoId).Pass?
            <==> otherDaoId == daoId
  {
  }

  /** Showing more badges never withdraws admission. */
  lemma {:induction false} AdmissionMonotone(managerAddress: ResourceAddress, a: seq<DaoAdminBadge>, b: seq<DaoAdminBadge>, daoId: string)
    requires CheckIsDaoAdmin(managerAddress, Proof(managerAddress, a), daoId).Pass?
    ensures CheckIsDaoAdmin(managerAddress, Proof(managerAddress, a + b), daoId).Pass?
    ensures CheckIsDaoAdmin(managerAddress, Proof(managerAddress, b + a), daoId).Pass?
  {
    var i :| 0 <= i < |a| && a[i].DaoId() == daoId;
    assert (a + b)[i] == a[i];
    assert (b + a)[|b| + i] == a[i];
  }

  /** The order in which a proof lists its badges does not matter. */
  lemma {:induction false} AdmissionIgnoresOrder(managerAddress: ResourceAddress, a: seq<DaoAdminBadge>, b: seq<DaoAdminBadge>, daoId: string)
    requires multiset(a) == multiset(b)
    ensures CheckIsDaoAdmin(managerAddress, Proof(managerAddress, a), daoId)
            == CheckIsDaoAdmin(managerAddress, Proof(managerAddress, b), daoId)
  {
    if exists i :: 0 <= i < |a| && a[i].DaoId() == daoId {
      var i :| 0 <= i < |a| && a[i].DaoId() == daoId;
      assert a[i] in multiset(b);
      var j :| 0 <= j < |b| && b[j] == a[i];
    }
    if exists j :: 0 <= j < |b| && b[j].DaoId() == daoId {
      var j :| 0 <= j < |b| && b[j].DaoId() == daoId;
      assert b[j] in multiset(a);
      var i :| 0 <= i < |a| && a[i] == b[j];
    }
  }
}

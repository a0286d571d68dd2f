# CrumbsUp DAO ledger — a Dafny model

This project models the core of the CrumbsUp DAO blueprint, a Radix Scrypto crate. Its main part is the `DaoHoard` component of `lib.rs`, which does the following:

- It keeps a registry of DAO records, stored as string non-fungibles keyed by the normalised DAO id.
- Each DAO owns its own proposal store, a resource manager of proposals.
- It keeps a vault of proposal-creation fees.
- It forwards option, vote and result additions to the proposal store of the DAO named.

The model also covers:

- the proposal record and its append-only edits (`proposal.rs`);
- the module-level DAO variant with its accessors (`dao.rs`);
- the admin badge and its admission check (`dao_admin_badge.rs`);
- id normalisation (`utils.rs`);
- the four small record constructors.

Modules follow the source files:

- `Utils` (utils.rs), `ProposalOptions`, `ProposalVotes`, `ProposalResults` and `ProposalResultOptions` (the record files).
- `Proposals` (proposal.rs), `DaoHoard` (lib.rs), `Daos` (dao.rs) and `DaoAdminBadges` (dao_admin_badge.rs).
- `Wrappers` holds `Option`, `Result` and `Outcome`.
- `Ledger` holds the host types: `Decimal` as an integer count of attos, `u32` as a bounded newtype, URLs and addresses as strings, and the ledger's abort reasons.

How the ledger is represented:

- A resource manager whose records the code edits in place is a class holding a `map`. These are `Proposals.ProposalStore`, the DAO map of `DaoHoard.DaoHoard`, `Daos.DaoResourceManager` and `DaoAdminBadges.DaoAdminBadgeManager`.
- Its methods read the record, change one field, and write it back, just as the source does.
- Every abort (`unwrap`, `assert!`, a failing ledger call) is a `Fail`/`Failure` result.
- On an abort the state stays as it was, because a Radix transaction that panics is reverted.
- DAO records hold a reference to their proposal store. `DaoHoard.Valid` states that no two DAOs share a store, so editing one DAO's proposals never touches another's.

What the code does not do, and the model therefore does not do either:

- There is no admin-credential check on `dao_update`, `dao_add_proposal` or `proposal_add_*`. These are open to any caller (lib.rs:61-65).
- Of the DAO and proposal methods, only `dao_create` is role-restricted (lib.rs:60).
- The price setter and the fee withdrawal need `superadmin` (lib.rs:58-59), and instantiation needs the owner badge (lib.rs:48-51). Roles are not modelled.
- There is no option freeze and no epoch window. The voting window is two unparsed strings (proposal.rs:15-16).
- There is no duplicate-option or duplicate-vote check, and no per-token de-duplication.
- There is no tally. Vote power and result figures are whatever the caller supplies (lib.rs:308, 329-331).
- `dao_create` mints no admin badge.

## Model

| member | source | states |
|---|---|---|
| Utils.ReplaceHyphens | dao/src/utils.rs:4 | The result has the input's length. Every `-` becomes `_` and every other character keeps its position. The result contains no `-`. |
| Utils.CreateNonFungibleIdOfUuid | dao/src/utils.rs:3-7 | Succeeds exactly when the uuid is 1 to 64 characters long and each character is a letter, a digit, `_` or `-`. On success it returns the normalised id, which is a valid string local id without `-`. Otherwise it aborts with `InvalidLocalId` of the normalised string. |
| Utils.ReplacedValidIff | dao/src/utils.rs:4-6 | The normalised uuid is a valid local id iff the uuid has 1 to 64 characters, each a local-id character or `-`. |
| Utils.ReplaceHyphensIdempotent | dao/src/utils.rs:4 | Normalising twice gives the same id as normalising once. |
| Utils.ReplaceHyphensFixesHyphenFree | dao/src/utils.rs:4 | A uuid without `-` is its own normal form. |
| Utils.ReplaceHyphensCollideIff | dao/src/utils.rs:4 | Two uuids normalise to the same id iff they have the same length and differ only by `-` against `_` at the same positions. |
| Utils.ReplaceHyphensNotInjective | dao/src/utils.rs:4 | `a-b` and `a_b` are distinct uuids that name the same non-fungible. |
| ProposalOptions.New | dao/src/proposal_option.rs:14-23 | Id, rank, label and extension map are stored verbatim. There is no range or uniqueness check. |
| ProposalVotes.New | dao/src/proposal_vote.rs:16-34 | Id, option id, entity, power, creation time and extension map are stored verbatim. Power has no sign check and the option is not checked to exist. |
| ProposalResults.New | dao/src/proposal_result.rs:13-22 | Vote count, vote power, per-option results and extension map are stored verbatim. Nothing ties them to one another. |
| ProposalResultOptions.New | dao/src/proposal_result_option.rs:15-25 | Option id, name and share are stored verbatim. Both extension maps start empty. |
| Proposals.CreateProposal | dao/src/proposal.rs:32-64 | The title is kept as both `title` and `name`, and the abstract as both `p_abstract` and `description`. The other fields are copied. The proposal starts with no options, no votes and no result. |
| Proposals.Apply | dao/src/proposal.rs:91-154 | A pushed option or vote lands at the end of its list, which grows by one; earlier entries keep their places. A result replaces any previous one. Every other field of the proposal is unchanged. |
| Proposals.ChangeIn | dao/src/proposal.rs:99-153 | An edit succeeds iff the proposal id is valid and names a stored proposal. Otherwise it aborts with the id error or `NonFungibleNotFound`. On success only that proposal changes, as `Apply` says, and every other proposal and the key set stay the same. |
| Proposals.MintIn | dao/src/lib.rs:281-283 | Minting aborts with `NonFungibleExists` when the local id is taken. Otherwise it adds exactly that entry and leaves the others unchanged. |
| Proposals.SetResultIdempotent | dao/src/proposal.rs:147-153 | Adding the same result a second time leaves the store exactly as after the first time. |
| Proposals.StepOnlyAppends | dao/src/proposal.rs:91-154 | No single mint or edit removes a proposal. The options and votes of each proposal only gain entries at their ends, and no other field changes except the result. |
| Proposals.RunOnlyAppends | dao/src/proposal.rs:91-154 | The same holds for any sequence of mints and edits: options and votes are append-only and proposals are never removed. |
| Proposals.ProposalStore.constructor | dao/src/proposal.rs:86 | A new proposal store holds no proposals. |
| Proposals.ProposalStore.Mint | dao/src/lib.rs:281-283 | The new state is `MintIn` of the old one. The call passes iff the local id was free. |
| Proposals.ProposalStore.AddOption | dao/src/proposal.rs:91-110 | The new state and outcome are `ChangeIn` with the new option pushed: the old option list plus the new option at the end, with no other field and no other proposal changed. It aborts, changing nothing, on an invalid or unknown id. |
| Proposals.ProposalStore.AddVote | dao/src/proposal.rs:112-133 | The state changes as `ChangeIn` with the new vote pushed. The last vote carries the caller's power unchanged and earlier votes are kept. Options and result are untouched. It aborts, changing nothing, on an invalid or unknown id. |
| Proposals.ProposalStore.AddResult | dao/src/proposal.rs:135-154 | The state changes as `ChangeIn` with the result set: the result becomes `Some` of the new one and nothing else changes. It aborts, changing nothing, on an invalid or unknown id. |
| DaoHoard.NewDao | dao/src/lib.rs:161-177 | The new record's `description` is a copy of `about`. `component_type` is "CrumbsUpDao" and `version` is 1. Every other field is copied. |
| DaoHoard.DaoHoard.constructor | dao/src/lib.rs:75-101 | The component starts with no DAOs, an empty fee vault and the given price, and no two DAOs share a store. |
| DaoHoard.DaoHoard.SetProposalCreationPrice | dao/src/lib.rs:130-132 | The price is overwritten. The DAOs and the fee vault are unchanged. |
| DaoHoard.DaoHoard.WithdrawCrumbFees | dao/src/lib.rs:134-136 | The whole vault balance is returned and the vault is left at 0. Nothing else changes. |
| DaoHoard.DaoHoard.GetDao | dao/src/lib.rs:345-351 | Succeeds iff the DAO id is valid and present, and then returns the stored record. Otherwise it gives the id error or `NonFungibleNotFound`. |
| DaoHoard.DaoHoard.DaoCreate | dao/src/lib.rs:138-184 | Succeeds iff the id is valid and not yet taken. On success the record is stored under the normalised id: `NewDao` of the inputs with a fresh, empty proposal store. Existing DAOs are untouched and stores stay distinct. It aborts with the id error or `NonFungibleExists`, changing nothing. |
| DaoHoard.DaoHoard.DaoUpdate | dao/src/lib.rs:186-245 | Passes iff `get_dao` would succeed. It then overwrites exactly name, info_url, key_image_url, dao_type, resource_address, about, general, rules and additional_data of that record. `dao_id`, `description`, `created`, `component_type`, `version` and `proposals` keep their values, and every other DAO is unchanged. On failure nothing changes. |
| DaoHoard.DaoHoard.DaoAddProposal | dao/src/lib.rs:247-286 | With token types left out (see "## Left out"), it succeeds iff 0 ≤ price ≤ payment, the proposal id is valid, the DAO exists and the proposal id is free in that DAO's store. On success the vault grows by exactly the price, the change is payment − price, and together they account for the whole payment. That DAO's store gains exactly `create_proposal` of the inputs, carrying the DAO's `key_image_url`, under the normalised proposal id. On failure no fee is kept. No other DAO's store changes. |
| DaoHoard.DaoHoard.ProposalAddOption | dao/src/lib.rs:288-299 | Aborts if the DAO is unknown. Otherwise the named DAO's store changes as `ChangeIn` with the option pushed, and every other DAO's store is unchanged. |
| DaoHoard.DaoHoard.ProposalAddVote | dao/src/lib.rs:301-323 | Aborts if the DAO is unknown. Otherwise the named DAO's store changes as `ChangeIn` with the vote, carrying the caller's power, pushed. Other DAOs' stores are unchanged. |
| DaoHoard.DaoHoard.ProposalAddResult | dao/src/lib.rs:325-343 | Aborts if the DAO is unknown. Otherwise the named DAO's store changes as `ChangeIn` with the caller's result set. Other DAOs' stores are unchanged. |
| Daos.Dao.Name | dao/src/dao.rs:38-40 | Returns the stored `name`. |
| Daos.Dao.Proposals | dao/src/dao.rs:42-44 | Returns the stored proposal store. |
| Daos.Dao.DaoType | dao/src/dao.rs:46-48 | Returns the stored `dao_type`. |
| Daos.Dao.GovernanceResource | dao/src/dao.rs:50-52 | Returns the stored `governance_resource`. |
| Daos.Dao.KeyImageUrl | dao/src/dao.rs:54-56 | Returns the stored `key_image_url`. |
| Daos.NewDao | dao/src/dao.rs:147-165 | The new record's `description` is a copy of `about`. `component_type` is "CrumbsUpDao" and `version` is 1. `created_epoch` is the current epoch and `additional_data_vec` is empty. Every other field is copied. |
| Daos.DaoResourceManager.constructor | dao/src/dao.rs:62-117 | A new DAO resource manager holds no DAOs. |
| Daos.DaoResourceManager.Get | dao/src/dao.rs:233-237 | Succeeds iff the id is valid and present, and then returns the stored record. Otherwise it aborts with the id error or `NonFungibleNotFound`. |
| Daos.DaoResourceManager.Create | dao/src/dao.rs:119-170 | Succeeds iff the id is valid and free. On success it stores `NewDao` of the inputs and the current epoch, with a fresh empty proposal store, under the normalised id; other DAOs are untouched. It aborts with the id error or `NonFungibleExists`, changing nothing. |
| Daos.DaoResourceManager.Update | dao/src/dao.rs:172-231 | Passes iff `get` would succeed. It then overwrites exactly name, info_url, key_image_url, dao_type, governance_resource, about, general, rules and additional_data. `dao_id`, `component_type`, `version`, `description`, `created`, `created_epoch`, `additional_data_vec` and `proposals` keep their values. Afterwards `get` and the accessors `name`, `dao_type`, `governance_resource`, `key_image_url` and `proposals` return the new values. On failure nothing changes. |
| DaoAdminBadges.DaoAdminBadge.DaoId | dao/src/dao_admin_badge.rs:71-75 | Returns the stored `dao_id`. |
| DaoAdminBadges.NewBadge | dao/src/dao_admin_badge.rs:78-86 | `dao_id` is copied verbatim. The name is "<dao_name> Admin Badge" and the description is "This Admin Badge allows you to administrate the DAO <dao_name>.". Both URLs are the fixed CrumbsUp ones and both extension maps are empty. |
| DaoAdminBadges.DaoAdminBadgeManager.constructor | dao/src/dao_admin_badge.rs:3-52 | A new badge manager has the given address and no badges. |
| DaoAdminBadges.DaoAdminBadgeManager.Mint | dao/src/dao_admin_badge.rs:77-90 | Exactly one badge, `NewBadge` of the DAO id and name, is added under the new RUID and returned. Existing badges are unchanged. |
| DaoAdminBadges.AnyAdminOf | dao/src/dao_admin_badge.rs:94-96 | True iff some presented badge has the target `dao_id`. |
| DaoAdminBadges.CheckIsDaoAdmin | dao/src/dao_admin_badge.rs:92-98 | Passes iff the proof is of the admin-badge resource and some badge in it has the target `dao_id`. It aborts with "NFTs are no DAO Admin Badges" on a proof of another resource. Otherwise it aborts with "You are not an admin of this DAO". A proof with no badges never passes. |
| DaoAdminBadges.MintedBadgeAdmitsOnlyItsDao | dao/src/dao_admin_badge.rs:77-98 | A proof holding just the badge minted for a DAO passes the check for that DAO and for no other. |
| DaoAdminBadges.AdmissionMonotone | dao/src/dao_admin_badge.rs:94-97 | Adding badges to a passing proof, before or after, never makes it fail. |
| DaoAdminBadges.AdmissionIgnoresOrder | dao/src/dao_admin_badge.rs:94-97 | Two proofs with the same badges in any order get the same outcome. |

## Left out

- Resource-manager builders, roles, metadata and the auth tables are left out (lib.rs:42-67, 103-128; dao.rs:62-117; dao_admin_badge.rs:3-52; proposal.rs:66-89). For `dao.rs` and `dao_admin_badge.rs` they are ledger configuration with no behaviour to state, since minting and data updates are kept to the component or the owner badge (dao.rs:86-93, dao_admin_badge.rs:23-30). Caller roles are not modelled, so in the model anyone can call `dao_create` (`daocreator` in the source) and the price setter and fee withdrawal (`superadmin` in the source).
- Proposals.RunOnlyAppends, DaoHoard.DaoHoard.DaoAddProposal and the `daocreator` role hold only for calls through the component. The DAO and proposal resource managers let anyone mint and update non-fungible data (lib.rs:117-124, proposal.rs:78-85). A transaction can therefore mint a DAO without `dao_create`, mint a proposal without paying the proposal-creation price, or overwrite any `#[mutable]` proposal field, `options` and `votes` included. The model has only the component's methods.
- `Url::of` is a library call. URLs are opaque strings.
- `Runtime::current_epoch` is a host clock. The epoch is an input to `Daos.DaoResourceManager.Create`.
- `NonFungibleLocalId::string` is library code outside this repository. Its validity rule is written out as `Utils.IsValidStringLocalId`: 1 to 64 characters, each a letter, a digit or `_`, as the Radix ledger states it.
- RUID generation is random. `DaoAdminBadges.DaoAdminBadgeManager.Mint` takes the RUID as an input and requires it to be unused, as the ledger guarantees.
- DaoHoard.DaoHoard.DaoAddProposal: the fee vault holds one token only (lib.rs:81), and `crumb_fees.put` (lib.rs:263) aborts when the payment is in any other token. The model has no token types and accepts every payment, so it succeeds on payments in another token that the source rejects.
- Buckets, vaults and proofs are not modelled as resources:
  - The payment and the fee vault are integer amounts.
  - A proof is a resource address plus the badges it shows.
- `Decimal` is an unbounded integer count of attos. Its 192-bit range is not modelled.
- DaoHoard.DaoHoard.DaoAddProposal puts the fee into the vault last, not first as the source does. An abort reverts the whole transaction, so the committed state is the same either way.
- `Bucket::take` refuses a negative amount and an amount larger than the bucket. Both are modelled as aborts (`InvalidAmount`, `InsufficientBalance`), following the ledger's rule; that code is outside this repository.
- `dao.rs:139` calls `proposal::create_resource_manager`, which `proposal.rs` does not define; `proposal.rs:66` has `create_proposal_resource_manager`. The model allocates a fresh empty proposal store there, as `lib.rs` does.
- `dao.rs`, `dao_admin_badge.rs` and `proposal_result_option.rs` are not declared in `lib.rs`'s module list (lib.rs:1-5). They are modelled as separate modules that `DaoHoard` does not use.
- The source has no badge update operation, so the only badge state change is `Mint`. That a badge's `dao_id` never changes therefore holds because `Mint` leaves every existing badge as it was.
- The test harness in `dao/tests/lib.rs` is not part of this model. It only checks that transactions commit.

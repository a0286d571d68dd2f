/**
 * `proposal.rs`: the proposal record and the operations on one DAO's
 * proposal store (a Radix resource manager of string non-fungibles, keyed by
 * the normalised proposal id).
 */
module Proposals {
  import opened Wrappers
  import opened Ledger
  import Utils
  import ProposalOptions
  import ProposalVotes
  import ProposalResults

  datatype Proposal = Proposal(
    proposalId: string,
    name: string,
    description: string,
    title: string,
    pAbstract: string,
    specification: string,
    votingStart: string,  // the voting window is two unparsed strings
    votingEnd: string,
    created: string,
    infoUrl: Url,
    keyImageUrl: Url,
    additionalData: map<string, string>,
    options: seq<ProposalOptions.ProposalOption>,
    votes: seq<ProposalVotes.ProposalVote>,
    result: Option<ProposalResults.ProposalResult>)

  /** The contents of one proposal store: normalised local id to proposal. */
  type Store = map<string, Proposal>

  /**
   * `create_proposal`: the title is kept as both `title` and `name`, the
   * abstract as both `pAbstract` and `description`; the proposal starts with
   * no options, no votes and no result.
   */
  function CreateProposal(id: string, title: string, pAbstract: string, specification: string,
                          votingStart: string, votingEnd: string, created: string, infoUrl: Url,
                          keyImageUrl: Url, additionalData: map<string, string>): (p: Proposal)
    ensures p.proposalId == id
    ensures p.title == title && p.name == title
    ensures p.pAbstract == pAbstract && p.description == pAbstract
    ensures p.specification == specification && p.created == created
    ensures p.votingStart == votingStart && p.votingEnd == votingEnd
    ensures p.infoUrl == infoUrl && p.keyImageUrl == keyImageUrl && p.additionalData == additionalData
    ensures p.options == [] && p.votes == [] && p.result == None
  {
    Proposal(id, title, pAbstract, title, pAbstract, specification, votingStart, votingEnd, created,
             infoUrl, keyImageUrl, additionalData, [], [], None)
  }

  /** The single field that `add_option`, `add_vote` and `add_result` each write back. */
  datatype Change =
    | PushOption(option: ProposalOptions.ProposalOption)
    | PushVote(vote: ProposalVotes.ProposalVote)
    | SetResult(result: ProposalResults.ProposalResult)

  /**
   * What one change does to a proposal: a pushed option or vote lands at the
   * end of its list, earlier entries keep their places; a result replaces
   * any previous one; every other field is left as it was.
   */
  function Apply(p: Proposal, c: Change): (q: Proposal)
    ensures c.PushOption? ==>
              && |q.options| == |p.options| + 1
              && q.options[..|p.options|] == p.options
              && q.options[|p.options|] == c.option
              && q.(options := p.options) == p
    ensures c.PushVote? ==>
              && |q.votes| == |p.votes| + 1
              && q.votes[..|p.votes|] == p.votes
              && q.votes[|p.votes|] == c.vote
              && q.(votes := p.votes) == p
    ensures c.SetResult? ==> q.result == Some(c.result) && q.(result := p.result) == p
  {
    match c
    case PushOption(o) => p.(options := p.options + [o])
    case PushVote(v) => p.(votes := p.votes + [v])
    case SetResult(res) => p.(result := Some(res))
  }

  /**
   * A change to the proposal stored under `proposalId`: it aborts when the id
   * does not normalise to a valid local id or names no proposal, and
   * otherwise touches that one proposal only.
   */
  function ChangeIn(store: Store, proposalId: string, c: Change): (r: Result<Store, Error>)
    ensures r.Success? <==> Utils.CreateNonFungibleIdOfUuid(proposalId).Success? && Utils.ReplaceHyphens(proposalId) in store
    ensures r.Failure? ==> r.error == (if Utils.CreateNonFungibleIdOfUuid(proposalId).Failure?
                                       then Utils.CreateNonFungibleIdOfUuid(proposalId).error
                                       else NonFungibleNotFound(Utils.ReplaceHyphens(proposalId)))
    ensures r.Success? ==>
              var key := Utils.ReplaceHyphens(proposalId);
              && r.value.Keys == store.Keys
              && r.value[key] == Apply(store[key], c)
              && forall k :: k in store && k != key ==> r.value[k] == store[k]
  {
    var key :- Utils.CreateNonFungibleIdOfUuid(proposalId);
    if key in store then Success(store[key := Apply(store[key], c)]) else Failure(NonFungibleNotFound(key))
  }

  /** Minting a proposal: it aborts when the local id is taken, and otherwise adds exactly that entry. */
  function MintIn(store: Store, localId: string, p: Proposal): (r: Result<Store, Error>)
    ensures r.Success? <==> localId !in store
    ensures r.Failure? ==> r.error == NonFungibleExists(localId)
    ensures r.Success? ==>
              && r.value.Keys == store.Keys + {localId}
              && r.value[localId] == p
              && forall k :: k in store ==> r.value[k] == store[k]
  {
    if localId in store then Failure(NonFungibleExists(localId)) else Success(store[localId := p])
  }

  /** How a method's outcome and new state follow from a transition that may abort. */
  predicate Commits(t: Result<Store, Error>, r: Outcome<Error>, before: Store, after: Store) {
    match t
    case Success(s) => r == Pass && after == s
    case Failure(e) => r == Fail(e) && after == before
  }

  /** Adding the same result twice leaves the store as adding it once. */
  lemma SetResultIdempotent(store: Store, proposalId: string, res: ProposalResults.ProposalResult)
    requires ChangeIn(store, proposalId, SetResult(res)).Success?
    ensures var once := ChangeIn(store, proposalId, SetResult(res)).value;
            ChangeIn(once, proposalId, SetResult(res)) == Success(once)
  {
    var key := Utils.ReplaceHyphens(proposalId);
    var once := ChangeIn(store, proposalId, SetResult(res)).value;
    var twice := ChangeIn(once, proposalId, SetResult(res)).value;
    assert Apply(once[key], SetResult(res)) == once[key];
    assert twice == once;
  }

  /** Every operation a proposal store receives. */
  datatype StoreOp =
    | Mint(localId: string, proposal: Proposal)
    | Edit(proposalId: string, change: Change)

  /** One operation as a transaction: an aborted one leaves the store as it was. */
  function Step(store: Store, op: StoreOp): Store {
    var t := match op
      case Mint(id, p) => MintIn(store, id, p)
      case Edit(id, c) => ChangeIn(store, id, c);
    if t.Success? then t.value else store
  }

  function Run(store: Store, ops: seq<StoreOp>): Store
    decreases |ops|
  {
    if ops == [] then store else Run(Step(store, ops[0]), ops[1..])
  }

  /** `q` is `p` with possibly more options and votes appended and possibly a new result. */
  predicate Extends(p: Proposal, q: Proposal) {
    && p.options <= q.options
    && p.votes <= q.votes
    && q.(options := p.options, votes := p.votes, result := p.result) == p
  }

  lemma StepOnlyAppends(store: Store, op: StoreOp)
    ensures forall k :: k in store ==> k in Step(store, op) && Extends(store[k], Step(store, op)[k])
  {
  }

  /**
   * No sequence of operations removes a proposal or edits an option or vote
   * already recorded: the option and vote lists of every stored proposal only
   * grow at their ends, and its other fields, the result aside, never change.
   */
  lemma {:induction false} RunOnlyAppends(store: Store, ops: seq<StoreOp>)
    ensures forall k :: k in store ==> k in Run(store, ops) && Extends(store[k], Run(store, ops)[k])
    decreases |ops|
  {
    if ops != [] {
      var next := Step(store, ops[0]);
      StepOnlyAppends(store, ops[0]);
      RunOnlyAppends(next, ops[1..]);
      assert Run(store, ops) == Run(next, ops[1..]);
    }
  }

  /**
   * One DAO's proposal resource manager: the proposals it holds, updated in
   * place by the functions of `proposal.rs`.
   */
  class ProposalStore {
    var proposals: Store

    constructor ()
      ensures proposals == map[]
    {
      proposals := map[];
    }

    /** `mint_non_fungible` of a proposal under an already normalised local id. */
    method Mint(localId: string, p: Proposal) returns (r: Outcome<Error>)
      modifies this
      ensures Commits(MintIn(old(proposals), localId, p), r, old(proposals), proposals)
      ensures r.Pass? <==> localId !in old(proposals)
    {
      if localId in proposals {
        return Fail(NonFungibleExists(localId));
      }
      proposals := proposals[localId := p];
      r := Pass;
    }

    /** `add_option`: read the proposal, push the new option, write back `options` only. */
    method AddOption(proposalId: string, optionId: string, rank: uint32, option: string,
                     additionalData: map<string, string>) returns (r: Outcome<Error>)
      modifies this
      ensures Commits(ChangeIn(old(proposals), proposalId, PushOption(ProposalOptions.New(optionId, rank, option, additionalData))),
                      r, old(proposals), proposals)
      ensures r.Pass? ==> var key := Utils.ReplaceHyphens(proposalId);
                          proposals[key].options == old(proposals)[key].options + [ProposalOptions.New(optionId, rank, option, additionalData)]
    {
      var id := Utils.CreateNonFungibleIdOfUuid(proposalId);
      if id.Failure? {
        return Fail(id.error);
      }
      var key := id.value;
      if key !in proposals {
        return Fail(NonFungibleNotFound(key));
      }
      var proposal := proposals[key];
      var newOption := ProposalOptions.New(optionId, rank, option, additionalData);
      proposal := proposal.(options := proposal.options + [newOption]);
      proposals := proposals[key := proposals[key].(options := proposal.options)];
      r := Pass;
    }

    /** `add_vote`: read the proposal, push the new vote with the caller's power, write back `votes` only. */
    method AddVote(proposalId: string, voteId: string, optionId: string, entity: ComponentAddress,
                   power: Decimal, created: string, additionalData: map<string, string>) returns (r: Outcome<Error>)
      modifies this
      ensures Commits(ChangeIn(old(proposals), proposalId, PushVote(ProposalVotes.New(voteId, optionId, entity, power, created, additionalData))),
                      r, old(proposals), proposals)
      ensures r.Pass? ==> var key := Utils.ReplaceHyphens(proposalId);
                          var votes := proposals[key].votes;
                          votes[..|votes| - 1] == old(proposals)[key].votes && votes[|votes| - 1].power == power
    {
      var id := Utils.CreateNonFungibleIdOfUuid(proposalId);
      if id.Failure? {
        return Fail(id.error);
      }
      var key := id.value;
      if key !in proposals {
        return Fail(NonFungibleNotFound(key));
      }
      var proposal := proposals[key];
      var vote := ProposalVotes.New(voteId, optionId, entity, power, created, additionalData);
      proposal := proposal.(votes := proposal.votes + [vote]);
      proposals := proposals[key := proposals[key].(votes := proposal.votes)];
      r := Pass;
    }

    /** `add_result`: read the proposal, set the caller's result, write back `result` only. */
    method AddResult(proposalId: string, voteCount: uint32, votePower: Decimal, results: map<string, Decimal>,
                     additionalData: map<string, string>) returns (r: Outcome<Error>)
      modifies this
      ensures Commits(ChangeIn(old(proposals), proposalId, SetResult(ProposalResults.New(voteCount, votePower, results, additionalData))),
                      r, old(proposals), proposals)
      ensures r.Pass? ==> proposals[Utils.ReplaceHyphens(proposalId)].result == Some(ProposalResults.New(voteCount, votePower, results, additionalData))
    {
      var id := Utils.CreateNonFungibleIdOfUuid(proposalId);
      if id.Failure? {
        return Fail(id.error);
      }
      var key := id.value;
      if key !in proposals {
        return Fail(NonFungibleNotFound(key));
      }
      var proposal := proposals[key];
      var result := ProposalResults.New(voteCount, votePower, results, additionalData);
      proposal := proposal.(result := Some(result));
      proposals := proposals[key := proposals[key].(result := proposal.result)];
      r := Pass;
    }
  }
}

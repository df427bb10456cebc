/** The distributor as an object: its state in memory, and the copy it has saved. */
module DistributorObject {
  import opened Common
  import opened LedgerModel
  import opened Distribution

  lemma FaucetBranchesSnoc(branches: seq<Branch>, last: Branch, recipient: Account)
    ensures FaucetBranches(branches + [last], recipient)
         == FaucetBranches(branches, recipient)
            + if last.sender == SENDER && last.receiver == recipient then [last] else []
  {
    assert (branches + [last])[..|branches|] == branches;
  }

  const SCHEMA := "splitchain-friend-distribution/v1"
  const WALLET_LINE := "Wallet ID: "
  const CREDENTIAL_LINE := "Credential: "
  const SECRET_LENGTH := 64

  /** The plan file, and the saved state with the plan it belongs to. */
  datatype SavedPlan = SavedPlan(schema: string, plan: Plan)
  datatype SavedState = SavedState(schema: string, plan: Plan, journal: Journal)

  // ----- Drafts: the text that carries a recipient's credential, line by line -----

  predicate SecretChar(c: char) {
    '0' <= c <= '9' || 'a' <= c <= 'f'
  }

  /** `[0-9a-f]{64}` */
  predicate IsSecret(s: string) {
    |s| == SECRET_LENGTH && forall i :: 0 <= i < |s| ==> SecretChar(s[i])
  }

  /** The draft written for an account; `opening` and `closing` are its other lines. */
  function Draft(actor: Account, secret: string, opening: string, closing: seq<string>): seq<string> {
    [opening, WALLET_LINE + actor, CREDENTIAL_LINE + secret] + closing
  }

  function CredentialIn(lines: seq<string>, actor: Account): Outcome<string> {
    if |lines| < 3 || lines[1] != WALLET_LINE + actor || !(CREDENTIAL_LINE <= lines[2]) then Err("invalid SMS draft")
    else
      var secret := lines[2][|CREDENTIAL_LINE|..];
      if IsSecret(secret) then Ok(secret) else Err("invalid credential")
  }

  /** A draft gives its secret back to its own account if it is a well-formed one, and to nobody else. */
  lemma DraftRoundTrip(actor: Account, secret: string, opening: string, closing: seq<string>, reader: Account)
    ensures CredentialIn(Draft(actor, secret, opening, closing), reader) == Ok(secret)
            <==> && reader == actor && |secret| == 64
                 && forall c :: c in secret ==> '0' <= c <= '9' || 'a' <= c <= 'f'
    ensures reader != actor ==> CredentialIn(Draft(actor, secret, opening, closing), reader).Err?
  {
    var lines := Draft(actor, secret, opening, closing);
    assert lines[2][|CREDENTIAL_LINE|..] == secret;
    assert (WALLET_LINE + actor)[|WALLET_LINE|..] == actor && (WALLET_LINE + reader)[|WALLET_LINE|..] == reader;
    SecretIs(secret);
    hide IsSecret;
  }

  lemma SecretIs(secret: string)
    ensures IsSecret(secret) <==>
              |secret| == 64 && forall c :: c in secret ==> '0' <= c <= '9' || 'a' <= c <= 'f'
  {
    if |secret| == 64 && forall c :: c in secret ==> '0' <= c <= '9' || 'a' <= c <= 'f' {
      assert forall i :: 0 <= i < |secret| ==> secret[i] in secret;
    }
  }

  /** The recipient's draft is well formed and carries the credential on record. */
  predicate DraftAgrees(registry: map<Account, string>, drafts: map<Account, seq<string>>, actor: Account) {
    actor in drafts && actor in registry && CredentialIn(drafts[actor], actor) == Ok(registry[actor])
  }

  /** Every recipient's draft carries the credential on record, and the faucet has one. */
  predicate CredentialsAgree(plan: Plan, registry: map<Account, string>, drafts: map<Account, seq<string>>) {
    && (forall i :: 0 <= i < |plan.recipients| ==> DraftAgrees(registry, drafts, plan.recipients[i]))
    && SENDER in registry
  }

  class Distributor {
    const plan: Plan
    var state: Journal
    var saved: Journal

    /** A first start has an empty journal, a restart the last saved one. */
    constructor (plan: Plan, disk: Option<Journal>)
      ensures this.plan == plan && saved == state == if disk.Some? then disk.value else NEW_JOURNAL
    {
      this.plan := plan;
      var journal := if disk.Some? then disk.value else NEW_JOURNAL;
      state := journal;
      saved := journal;
    }

    /** The checks made before anything is spent: plan, pace, the state's own plan, every credential. */
    static method Open(
        file: SavedPlan, genesis: Genesis, disk: Option<SavedState>,
        registry: map<Account, string>, drafts: map<Account, seq<string>>, interval: real)
      returns (r: Outcome<Distributor>)
      ensures r.Ok? <==> && file.schema == SCHEMA && file.plan.genesis == genesis
                         && 0.0 <= interval <= 5.0
                         && (disk.Some? ==> disk.value.schema == SCHEMA && disk.value.plan == file.plan)
                         && CredentialsAgree(file.plan, registry, drafts)
      ensures r.Ok? ==> fresh(r.value) && r.value.plan == file.plan
                        && r.value.saved == r.value.state == if disk.Some? then disk.value.journal else NEW_JOURNAL
    {
      var plan := file.plan;
      if file.schema != SCHEMA || plan.genesis != genesis { return Err("plan differs from pinned genesis"); }
      if !(0.0 <= interval <= 5.0) { return Err("RPC interval must be between zero and five seconds"); }
      if disk.Some? && (disk.value.schema != SCHEMA || disk.value.plan != plan) {
        return Err("state belongs to a different distribution plan");
      }
      for i := 0 to |plan.recipients|
        invariant forall k :: 0 <= k < i ==> DraftAgrees(registry, drafts, plan.recipients[k])
      {
        var actor := plan.recipients[i];
        if actor !in drafts { return Err("invalid SMS draft"); }
        var secret := CredentialIn(drafts[actor], actor);
        if secret.Err? { return Err(secret.reason); }
        if actor !in registry || secret.value != registry[actor] { return Err("registry and SMS draft disagree"); }
      }
      if SENDER !in registry { return Err("faucet credential missing"); }
      var d := new Distributor(plan, if disk.Some? then Some(disk.value.journal) else None);
      return Ok(d);
    }

    method Save()
      modifies this
      ensures saved == state == old(state)
    {
      saved := state;
    }

    method Matching(all: seq<LedgerModel.Branch>, recipient: Account) returns (branches: seq<LedgerModel.Branch>)
      ensures branches == FaucetBranches(all, recipient)
    {
      branches := [];
      assert FaucetBranches(all[..0], recipient) == [];
      hide *;
      for i := 0 to |all|
        invariant branches == FaucetBranches(all[..i], recipient)
      {
        FaucetBranchesSnoc(all[..i], all[i], recipient);
        assert all[..i + 1] == all[..i] + [all[i]];
        if all[i].sender == SENDER && all[i].receiver == recipient {
          branches := branches + [all[i]];
        }
      }
      assert all[..|all|] == all;
    }

    method Branch(ledger: LedgerState, recipient: Account) returns (r: Outcome<Option<LedgerModel.Branch>>)
      ensures r == BranchIn(plan, state, recipient, ledger)
    {
      var branches := Matching(ledger.branches, recipient);
      hide FaucetBranches;
      if |branches| > 1 { return Err("multiple faucet branches found"); }
      if branches != [] && branches[0].value != plan.amount { return Err("preexisting different payment"); }
      if recipient in state.known && (branches == [] || branches[0].id != state.known[recipient]) {
        return Err("known offer missing from node status; refusing duplicate payment");
      }
      return Ok(if branches == [] then None else Some(branches[0]));
    }

    method ReconcileStatus(recipient: Account, ledger: LedgerState) returns (r: Outcome<bool>)
      requires saved == state
      modifies this
      ensures saved == state
      ensures match Reconcile(plan, old(state), recipient, ledger)
              case Ok(j) => r.Ok? && state == j
              case Err(reason) => r == Err(reason) && state == old(state)
    {
      if state.inFlight == None { return Ok(true); }
      var pending := state.inFlight.value;
      if pending.recipient != recipient { return Err("unresolved operation for another recipient"); }
      var branch := Branch(ledger, recipient);
      if branch.Err? { return Err(branch.reason); }
      if !Reached(pending.call, branch.value) { return Err("uncertain operation; no second payment sent"); }
      state := state.(known := state.known[recipient := branch.value.value.id], inFlight := None);
      Save();
      return Ok(true);
    }

    /** Reserves the nonce and the operation on disk before any request exists. */
    method BeginMutation(call: Call, recipient: Account, op: Op, actor: Account, clock: int) returns (request: Request)
      modifies this
      ensures saved == state == Reserve(old(state), actor, recipient, call, clock)
      ensures request == Request(actor, NextNonce(old(state), actor, clock), recipient, call, op)
    {
      var nonce := (if actor in state.lastNonces then state.lastNonces[actor] else -1) + 1;
      if clock > nonce { nonce := clock; }
      state := state.(lastNonces := state.lastNonces[actor := nonce]);
      request := Request(actor, nonce, recipient, call, op);
      state := state.(inFlight := Some(Pending(recipient, call, nonce)));
      Save();
    }

    method FinishMutation(call: Call, recipient: Account, answer: Answer) returns (ok: bool)
      requires saved == state
      modifies this
      ensures saved == state && (state, ok) == Settled(old(state), recipient, call, answer)
    {
      match answer {
        case InvalidRequest =>
          state := state.(inFlight := None);
          Save();
          return false;
        case OtherError =>
          return false;
        case Result(branchId) =>
          if call == OfferCall {
            if branchId == None { return false; }
            state := state.(known := state.known[recipient := branchId.value]);
          }
          state := state.(inFlight := None);
          Save();
          return true;
      }
    }

    /** One pass of `fund_one`, up to the request it sends, if any. */
    method FundPass(recipient: Account, ledger: LedgerState, clock: int) returns (turn: Turn)
      requires saved == state
      modifies this
      ensures turn == FundTurn(plan, old(state), recipient, ledger, clock)
      ensures saved == state == turn.journal
    {
      hide FaucetBranches, Available, NextNonce, Reserve;
      var reconciled := ReconcileStatus(recipient, ledger);
      if reconciled.Err? { return Stop(state); }
      var found := Branch(ledger, recipient);
      if found.Err? { return Stop(state); }
      if found.value == None {
        if Get(ledger.balances, recipient) != 0 { return Stop(state); }
        if Available(ledger, SENDER) < 2 * plan.amount { return Stop(state); }
        var offer := Offer(SENDER, recipient, plan.amount, OFFER_TTL);
        var request := BeginMutation(OfferCall, recipient, offer, SENDER, clock);
        return Send(state, request);
      }
      var b := found.value.value;
      if b.state.Offered? {
        var request := BeginMutation(AcceptCall, recipient, Accept(b.id, recipient), recipient, clock);
        return Send(state, request);
      } else if b.state.Accepted? {
        var request := BeginMutation(CommitCall, recipient, Commit(b.id, SENDER, EMPTY_PAYLOAD), SENDER, clock);
        return Send(state, request);
      } else if b.state.Committed? || b.state.Final? {
        return Funded(state);
      }
      return Stop(state);
    }
  }
}

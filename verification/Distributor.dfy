/** The batch faucet distributor: a journal saved before every request that moves units. */
module Distribution {
  import opened Common
  import opened LedgerModel
  import opened LedgerInvariants
  import LedgerTheorems

  const SENDER: Account := "testnet_faucet"
  const OFFER_TTL := 3600
  const EMPTY_PAYLOAD: Payload := "{}"

  /** `genesis` stands for the genesis digest, which is injective. */
  datatype Plan = Plan(genesis: Genesis, recipients: seq<Account>, amount: int, total: int)

  datatype Call = OfferCall | AcceptCall | CommitCall

  datatype Pending = Pending(recipient: Account, call: Call, nonce: int)

  /** The saved state: used nonces, branches this plan has seen, the operation under way. */
  datatype Journal = Journal(
    lastNonces: map<Account, int>,
    known: map<Account, BranchId>,
    inFlight: Option<Pending>)

  datatype Request = Request(actor: Account, nonce: int, recipient: Account, call: Call, op: Op)

  const NEW_JOURNAL := Journal(map[], map[], None)

  // ----- The plan -----

  function Digit(n: int): char
    requires 0 <= n < 10
  {
    ('0' as int + n) as char
  }

  /** `f"{n:03d}"` for the numbers a plan uses. */
  function ThreeDigits(n: int): string
    requires 0 <= n < 1000
  {
    [Digit(n / 100), Digit(n / 10 % 10), Digit(n % 10)]
  }

  predicate PrefixOk(prefix: string) {
    && 2 <= |prefix| <= 25
    && 'a' <= prefix[0] <= 'z'
    && (forall i :: 0 <= i < |prefix| ==> NameChar(prefix[i]))
    && !("testnet_" <= prefix)
  }

  predicate AccountPattern(actor: Account) {
    && 3 <= |actor| <= 32
    && 'a' <= actor[0] <= 'z'
    && forall i :: 0 <= i < |actor| ==> NameChar(actor[i])
  }

  function AccountsFor(prefix: string, count: int): Outcome<seq<Account>> {
    if !PrefixOk(prefix) then Err("malformed prefix")
    else if !(1 <= count <= 100) then Err("count must be between 1 and 100")
    else
      var accounts := seq(count, i requires 0 <= i < count => prefix + ThreeDigits(i + 1));
      if forall i :: 0 <= i < count ==> AccountPattern(accounts[i]) then Ok(accounts)
      else Err("generated account ID exceeds 32 characters")
  }

  function PlanFor(prefix: string, count: int, amount: int, genesis: Genesis): Outcome<Plan>
    requires SENDER in genesis.allocations
  {
    if amount < 1 || count * amount > genesis.allocations[SENDER] then
      Err("amount must be positive and total cannot exceed the faucet allocation")
    else
      match AccountsFor(prefix, count)
      case Err(reason) => Err(reason)
      case Ok(accounts) => Ok(Plan(genesis, accounts, amount, count * amount))
  }

  ghost predicate Distinct(names: seq<Account>) {
    forall i, j :: 0 <= i < j < |names| ==> names[i] != names[j]
  }

  ghost predicate PlanOk(plan: Plan) {
    plan.amount >= 1 && Distinct(plan.recipients) && plan.total == |plan.recipients| * plan.amount
  }

  /** The number a three-digit suffix stands for. */
  function SuffixValue(s: string): int
    requires |s| == 3
  {
    (s[0] as int - 48) * 100 + (s[1] as int - 48) * 10 + (s[2] as int - 48)
  }

  lemma SuffixRoundTrip(n: int)
    requires 0 <= n < 1000
    ensures SuffixValue(ThreeDigits(n)) == n
  {
  }

  /** The prefix, and the number in three digits. */
  predicate Numbered(prefix: string, name: Account, n: int) {
    && |name| == |prefix| + 3 && name[..|prefix|] == prefix && SuffixValue(name[|prefix|..]) == n
    && forall i :: |prefix| <= i < |name| ==> '0' <= name[i] <= '9'
  }

  lemma NumberIsRead(prefix: string, n: int)
    requires 0 <= n < 1000
    ensures Numbered(prefix, prefix + ThreeDigits(n), n)
  {
    var name := prefix + ThreeDigits(n);
    assert name[|prefix|..] == ThreeDigits(n);
    assert forall i :: |prefix| <= i < |name| ==> name[i] == ThreeDigits(n)[i - |prefix|];
  }

  lemma GeneratedName(prefix: string, n: int)
    requires PrefixOk(prefix) && 1 <= n <= 100
    ensures AccountPattern(prefix + ThreeDigits(n)) && Registrable(prefix + ThreeDigits(n))
  {
    var name := prefix + ThreeDigits(n);
    forall i | 0 <= i < |name|
      ensures NameChar(name[i])
    {
      if i >= |prefix| { assert name[i] == ThreeDigits(n)[i - |prefix|]; }
    }
    assert !("testnet_" <= name) by {
      if |prefix| >= 8 {
        assert name[..8] == prefix[..8];
      } else {
        assert |name| > 7 ==> name[7] == ThreeDigits(n)[7 - |prefix|] && name[7] != '_';
      }
    }
  }

  /**
   A plan is refused only for its prefix, count or amount: the length check on the generated
   names never fires. A plan that is made has distinct, registrable recipients, numbered from one,
   and spends exactly `count * amount`, within the faucet's allocation.
   */
  lemma PlanForIsSound(prefix: string, count: int, amount: int, genesis: Genesis)
    requires SENDER in genesis.allocations
    ensures var r, funds := PlanFor(prefix, count, amount, genesis), genesis.allocations[SENDER];
            && (r.Ok? <==> PrefixOk(prefix) && 1 <= count <= 100 && amount >= 1 && count * amount <= funds)
            && (r.Ok? ==>
                  && PlanOk(r.value) && r.value.total <= funds && |r.value.recipients| == count
                  && forall i :: 0 <= i < count ==> Registrable(r.value.recipients[i])
                                                     && Numbered(prefix, r.value.recipients[i], i + 1))
  {
    if PrefixOk(prefix) && 1 <= count <= 100 {
      AccountsForIsSound(prefix, count);
    }
    hide AccountPattern, Registrable, PrefixOk, Numbered;
  }

  lemma AccountsForIsSound(prefix: string, count: int)
    requires PrefixOk(prefix) && 1 <= count <= 100
    ensures var r := AccountsFor(prefix, count);
            && r.Ok? && |r.value| == count && Distinct(r.value)
            && forall i :: 0 <= i < count ==> Registrable(r.value[i]) && Numbered(prefix, r.value[i], i + 1)
  {
    var accounts := seq(count, i requires 0 <= i < count => prefix + ThreeDigits(i + 1));
    hide AccountPattern, Registrable, ThreeDigits, PrefixOk;
    forall i | 0 <= i < count
      ensures AccountPattern(accounts[i]) && Registrable(accounts[i]) && Numbered(prefix, accounts[i], i + 1)
    {
      GeneratedName(prefix, i + 1);
      NumberIsRead(prefix, i + 1);
    }
    forall i, j | 0 <= i < j < count
      ensures accounts[i] != accounts[j]
    {
      NamesDiffer(prefix, i + 1, j + 1);
    }
  }

  lemma NamesDiffer(prefix: string, m: int, n: int)
    requires 0 <= m < n < 1000
    ensures prefix + ThreeDigits(m) != prefix + ThreeDigits(n)
  {
    SuffixRoundTrip(m);
    SuffixRoundTrip(n);
    hide ThreeDigits, SuffixValue;
    assert (prefix + ThreeDigits(m))[|prefix|..] == ThreeDigits(m);
    assert (prefix + ThreeDigits(n))[|prefix|..] == ThreeDigits(n);
  }

  // ----- One turn of funding a recipient -----

  function FaucetBranches(branches: seq<Branch>, recipient: Account): seq<Branch> {
    if branches == [] then []
    else
      var last := branches[|branches| - 1];
      FaucetBranches(branches[..|branches| - 1], recipient)
        + if last.sender == SENDER && last.receiver == recipient then [last] else []
  }

  /** The recipient's one branch in a status report, or a refusal to continue. */
  function BranchIn(plan: Plan, j: Journal, recipient: Account, view: LedgerState): Outcome<Option<Branch>> {
    var found := FaucetBranches(view.branches, recipient);
    if |found| > 1 then Err("multiple faucet branches found")
    else if |found| == 1 && found[0].value != plan.amount then Err("preexisting different payment")
    else if recipient in j.known && (found == [] || found[0].id != j.known[recipient]) then
      Err("known offer missing from node status; refusing duplicate payment")
    else if found == [] then Ok(None)
    else Ok(Some(found[0]))
  }

  predicate Reached(call: Call, branch: Option<Branch>) {
    && branch.Some?
    && match call
       case OfferCall => true
       case AcceptCall => branch.value.state in {Accepted, Committed, Final}
       case CommitCall => branch.value.state in {Committed, Final}
  }

  /** Clears the operation under way only when the status shows that it happened. */
  function Reconcile(plan: Plan, j: Journal, recipient: Account, view: LedgerState): Outcome<Journal> {
    match j.inFlight
    case None => Ok(j)
    case Some(pending) =>
      if pending.recipient != recipient then Err("unresolved operation for another recipient")
      else
        match BranchIn(plan, j, recipient, view)
        case Err(reason) => Err(reason)
        case Ok(branch) =>
          if !Reached(pending.call, branch) then Err("uncertain operation; no second payment sent")
          else Ok(j.(known := j.known[recipient := branch.value.id], inFlight := None))
  }

  /** The next nonce: the clock, or one more than the last used when the clock is behind. */
  function NextNonce(j: Journal, actor: Account, clock: int): int {
    var last := if actor in j.lastNonces then j.lastNonces[actor] else -1;
    if clock > last then clock else last + 1
  }

  /** The journal saved before a request goes out. */
  function Reserve(j: Journal, actor: Account, recipient: Account, call: Call, clock: int): Journal {
    var nonce := NextNonce(j, actor, clock);
    j.(lastNonces := j.lastNonces[actor := nonce], inFlight := Some(Pending(recipient, call, nonce)))
  }

  datatype Answer = Result(branchId: Option<BranchId>) | InvalidRequest | OtherError

  /** The journal after an answer, and whether the call succeeded. */
  function Settled(j: Journal, recipient: Account, call: Call, answer: Answer): (Journal, bool) {
    match answer
    case InvalidRequest => (j.(inFlight := None), false)
    case OtherError => (j, false)
    case Result(branchId) =>
      if call == OfferCall then
        if branchId == None then (j, false)
        else (j.(known := j.known[recipient := branchId.value], inFlight := None), true)
      else (j.(inFlight := None), true)
  }

  datatype Turn =
    | Stop(journal: Journal)
    | Funded(journal: Journal)
    | Send(journal: Journal, request: Request)

  function SendCall(j: Journal, actor: Account, recipient: Account, call: Call, op: Op, clock: int): Turn {
    Send(Reserve(j, actor, recipient, call, clock),
         Request(actor, NextNonce(j, actor, clock), recipient, call, op))
  }

  /** One pass of the funding loop over one status report. */
  function FundTurn(plan: Plan, j: Journal, recipient: Account, view: LedgerState, clock: int): Turn {
    match Reconcile(plan, j, recipient, view)
    case Err(_) => Stop(j)
    case Ok(j1) =>
      match BranchIn(plan, j1, recipient, view)
      case Err(_) => Stop(j1)
      case Ok(None) =>
        if Get(view.balances, recipient) != 0 then Stop(j1)
        else if Available(view, SENDER) < 2 * plan.amount then Stop(j1)
        else SendCall(j1, SENDER, recipient, OfferCall, Offer(SENDER, recipient, plan.amount, OFFER_TTL), clock)
      case Ok(Some(b)) =>
        if b.state.Offered? then SendCall(j1, recipient, recipient, AcceptCall, Accept(b.id, recipient), clock)
        else if b.state.Accepted? then
          SendCall(j1, SENDER, recipient, CommitCall, Commit(b.id, SENDER, EMPTY_PAYLOAD), clock)
        else if b.state.Committed? || b.state.Final? then Funded(j1)
        else Stop(j1)
  }

  // ----- The world: crashes, lost answers, wrong reports, other clients -----

  /** What became of a request at the cluster. `Done` keeps the new branch of an offer. */
  datatype Fate = Open | Done(branch: Option<nat>) | Refused

  /**
   `waiting` is the request whose answer the running process awaits. `base` branches were
   there before the plan; `foreign` ones were offered by other clients since.
   */
  datatype World = World(
    plan: Plan, journal: Journal, waiting: Option<nat>,
    requests: seq<Request>, fates: seq<Fate>,
    ledger: LedgerState, opening: map<Account, int>, base: nat, foreign: set<nat>)

  datatype Step =
    | TakeTurn(recipient: Account, view: LedgerState, clock: int)
    | ReconcileThenCrash(recipient: Account, view: LedgerState)
    | Crash
    | Apply(request: nat)
    | Refuse(request: nat)
    | Deliver(answer: Answer)
    | Other(op: Op)

  /** The ledger is one that some run of the cluster has produced. */
  ghost predicate LedgerOk(w: World) {
    Inv(w.ledger, w.opening) && NothingOverdue(w.ledger)
  }

  ghost predicate Start(w: World) {
    && PlanOk(w.plan) && w.journal == NEW_JOURNAL && w.waiting == None
    && w.requests == [] && w.fates == []
    && LedgerOk(w) && w.base == |w.ledger.branches| && w.foreign == {}
  }

  /** Which answers a request's fate allows; any call may also end in an unusable answer. */
  predicate Honest(w: World, i: nat, answer: Answer)
    requires i < |w.fates| && i < |w.requests|
  {
    match answer
    case InvalidRequest => w.fates[i].Refused?
    case OtherError => true
    case Result(branchId) =>
      && w.fates[i].Done?
      && (branchId.Some? && w.requests[i].call == OfferCall ==>
            w.fates[i].branch.Some? && w.fates[i].branch.value < |w.ledger.branches|
            && branchId.value == w.ledger.branches[w.fates[i].branch.value].id)
  }

  /**
   A turn may see any report at all, old or wrong. A request is applied at most once, at any
   time or never; INVALID_REQUEST is the cluster's word that it never will be.
   */
  ghost predicate Next(w: World, step: Step, w': World) {
    match step
    case TakeTurn(recipient, view, clock) =>
      && recipient in w.plan.recipients && w.waiting == None
      && (match FundTurn(w.plan, w.journal, recipient, view, clock)
          case Stop(j) => w' == w.(journal := j)
          case Funded(j) => w' == w.(journal := j)
          case Send(j, request) =>
            w' == w.(journal := j, waiting := Some(|w.requests|),
                     requests := w.requests + [request], fates := w.fates + [Open]))
    case ReconcileThenCrash(recipient, view) =>
      && recipient in w.plan.recipients && w.waiting == None
      && Reconcile(w.plan, w.journal, recipient, view).Ok?
      && w' == w.(journal := Reconcile(w.plan, w.journal, recipient, view).value)
    case Crash => w' == w.(waiting := None)
    case Apply(i) =>
      && i < |w.requests| && i < |w.fates| && w.fates[i].Open?
      && Execute(w.ledger, w.requests[i].op).Ok?
      && w' == w.(ledger := Execute(w.ledger, w.requests[i].op).value,
                  fates := w.fates[i := Done(
                    if w.requests[i].op.Offer? then Some(|w.ledger.branches|) else None)])
    case Refuse(i) =>
      && i < |w.fates| && w.fates[i].Open? && w' == w.(fates := w.fates[i := Refused])
    case Deliver(answer) =>
      && w.waiting.Some? && w.waiting.value < |w.requests| && w.waiting.value < |w.fates|
      && Honest(w, w.waiting.value, answer)
      && var r := w.requests[w.waiting.value];
         w' == w.(journal := Settled(w.journal, r.recipient, r.call, answer).0, waiting := None)
    case Other(op) =>
      && Execute(w.ledger, op).Ok?
      && w' == w.(ledger := Execute(w.ledger, op).value,
                  foreign := if op.Offer? then w.foreign + {|w.ledger.branches|} else w.foreign)
  }

  datatype Execution = Execution(worlds: seq<World>, steps: seq<Step>)

  ghost predicate IsRun(e: Execution) {
    && |e.worlds| == |e.steps| + 1 && Start(e.worlds[0])
    && forall k :: 0 <= k < |e.steps| ==> Next(e.worlds[k], e.steps[k], e.worlds[k + 1])
  }

  // ----- Invariants -----

  /** A request asks for what its method says, within the plan. */
  predicate RequestOk(plan: Plan, r: Request) {
    && r.recipient in plan.recipients
    && r.actor == (if r.call == AcceptCall then r.recipient else SENDER)
    && (r.op.Offer? <==> r.call == OfferCall)
    && (r.call == OfferCall ==> r.op == Offer(SENDER, r.recipient, plan.amount, OFFER_TTL))
  }

  function PendingFor(r: Request): Pending {
    Pending(r.recipient, r.call, r.nonce)
  }

  /** The operation under way is always the last request. */
  ghost predicate JournalFits(w: World) {
    && |w.fates| == |w.requests|
    && (forall i :: 0 <= i < |w.requests| ==> RequestOk(w.plan, w.requests[i]))
    && (w.journal.inFlight.Some? ==>
          w.requests != [] && w.journal.inFlight.value == PendingFor(w.requests[|w.requests| - 1]))
    && (w.waiting.Some? ==> w.journal.inFlight.Some? && w.waiting.value == |w.requests| - 1)
  }

  /** Every nonce handed out is on record, and each actor's nonces strictly increase. */
  ghost predicate NoncesFit(w: World) {
    && (forall i :: 0 <= i < |w.requests| ==>
          w.requests[i].actor in w.journal.lastNonces
          && w.requests[i].nonce <= w.journal.lastNonces[w.requests[i].actor])
    && forall i, j :: 0 <= i < j < |w.requests| && w.requests[i].actor == w.requests[j].actor ==>
         w.requests[i].nonce < w.requests[j].nonce
  }

  predicate OfferTo(w: World, i: nat, recipient: Account)
    requires i < |w.requests|
  {
    w.requests[i].call == OfferCall && w.requests[i].recipient == recipient
  }

  /** An offer is refused, known, or still under way; so a new one can only follow a refusal. */
  ghost predicate OffersFit(w: World) {
    && |w.fates| == |w.requests|
    && (forall i :: 0 <= i < |w.requests| && w.requests[i].call == OfferCall ==>
          || w.fates[i].Refused?
          || w.requests[i].recipient in w.journal.known
          || (w.journal.inFlight.Some? && i == |w.requests| - 1))
    && (forall i, j ::
          0 <= i < j < |w.requests| && w.requests[j].call == OfferCall && OfferTo(w, i, w.requests[j].recipient)
          ==> w.fates[i].Refused?)
  }

  /** Request `i`, an offer, was applied and made branch `k`. */
  ghost predicate MadeBy(w: World, i: nat, k: nat) {
    i < |w.requests| && i < |w.fates| && w.requests[i].call == OfferCall && w.fates[i] == Done(Some(k))
  }

  /** Branch `k` was made by one of the plan's own offers. */
  ghost predicate Ours(w: World, k: nat) {
    exists i :: MadeBy(w, i, k)
  }

  /** Branch `k` pays the plan's amount from the faucet to the recipient. */
  ghost predicate Pays(w: World, k: nat, recipient: Account) {
    && w.base <= k < |w.ledger.branches|
    && w.ledger.branches[k].sender == SENDER && w.ledger.branches[k].receiver == recipient
    && w.ledger.branches[k].value == w.plan.amount
  }

  /** An applied offer made its branch, and every new branch is ours or foreign. */
  ghost predicate MadeFits(w: World) {
    && |w.fates| == |w.requests| && w.base <= |w.ledger.branches|
    && (forall i :: 0 <= i < |w.requests| && w.requests[i].call == OfferCall && w.fates[i].Done? ==>
          w.fates[i].branch.Some? && Pays(w, w.fates[i].branch.value, w.requests[i].recipient))
    && (forall k :: w.base <= k < |w.ledger.branches| ==> k in w.foreign || Ours(w, k))
  }

  ghost predicate WorldOk(w: World) {
    && PlanOk(w.plan) && LedgerOk(w)
    && JournalFits(w) && NoncesFit(w) && OffersFit(w) && MadeFits(w)
  }

  // ----- Each step keeps the invariant -----

  /** Reconciling either changes nothing or resolves the operation under way and records its branch. */
  predicate Reconciled(j: Journal, j': Journal) {
    && j'.inFlight == None
    && if j.inFlight == None then j' == j
       else
         var recipient := j.inFlight.value.recipient;
         recipient in j'.known
         && j' == j.(known := j.known[recipient := j'.known[recipient]], inFlight := None)
  }

  lemma ReconcileIs(plan: Plan, j: Journal, recipient: Account, view: LedgerState)
    requires Reconcile(plan, j, recipient, view).Ok?
    ensures Reconciled(j, Reconcile(plan, j, recipient, view).value)
  {
    hide BranchIn;
  }

  /** What a turn may send: a request of the plan, and an offer only to an unknown recipient. */
  predicate Sendable(plan: Plan, j: Journal, r: Request, clock: int) {
    && RequestOk(plan, r) && r.nonce == NextNonce(j, r.actor, clock)
    && (r.call == OfferCall ==> r.recipient !in j.known)
  }

  lemma TurnIs(plan: Plan, j: Journal, recipient: Account, view: LedgerState, clock: int)
    requires recipient in plan.recipients
    ensures match FundTurn(plan, j, recipient, view, clock)
            case Stop(j') => j' == j || Reconciled(j, j')
            case Funded(j') => Reconciled(j, j')
            case Send(j', r) =>
              var j1 := Reconcile(plan, j, recipient, view);
              && j1.Ok? && Reconciled(j, j1.value) && Sendable(plan, j1.value, r, clock)
              && j' == Reserve(j1.value, r.actor, r.recipient, r.call, clock)
  {
    if Reconcile(plan, j, recipient, view).Ok? {
      ReconcileIs(plan, j, recipient, view);
    }
    hide Reconcile, Reconciled, FaucetBranches, Available;
  }

  lemma ReconciledKeeps(w: World, j': Journal)
    requires WorldOk(w) && w.waiting == None && Reconciled(w.journal, j')
    ensures WorldOk(w.(journal := j'))
  {
    var w' := w.(journal := j');
    hide LedgerOk, PlanOk, Distinct, RequestOk;
    assert LedgerOk(w') by { LedgerFrame(w, w'); }
    assert MadeFits(w') by { MadeStays(w, w'); }
    hide MadeFits;
    assert w'.journal.lastNonces == w.journal.lastNonces;
    assert forall r :: r in w.journal.known ==> r in j'.known;
    assert OffersFit(w') by {
      forall i | 0 <= i < |w.requests| && w.requests[i].call == OfferCall
        ensures w.fates[i].Refused? || w.requests[i].recipient in j'.known
      {
      }
      forall i, j | 0 <= i < j < |w.requests| && w'.requests[j].call == OfferCall
                    && OfferTo(w', i, w'.requests[j].recipient)
        ensures w'.fates[i].Refused?
      {
        assert OfferTo(w, i, w.requests[j].recipient);
      }
    }
  }

  lemma LedgerFrame(w: World, w': World)
    requires LedgerOk(w) && w'.ledger == w.ledger && w'.opening == w.opening
    ensures LedgerOk(w')
  {
    hide Inv, NothingOverdue;
  }

  /** What was made stays made: the ledger only grows, and a request once applied stays applied. */
  lemma MadeFrame(w: World, w': World)
    requires MadeFits(w) && w'.plan == w.plan && w'.base == w.base && w.foreign <= w'.foreign
    requires LedgerTheorems.Extends(w.ledger, w'.ledger) && |w'.fates| == |w'.requests|
    requires |w.requests| <= |w'.requests| && forall i :: 0 <= i < |w.requests| ==>
               w'.requests[i] == w.requests[i] && (w.fates[i].Done? ==> w'.fates[i] == w.fates[i])
    ensures forall i :: 0 <= i < |w.requests| && w.requests[i].call == OfferCall && w.fates[i].Done? ==>
              w'.fates[i].branch.Some? && Pays(w', w'.fates[i].branch.value, w'.requests[i].recipient)
    ensures forall k :: w.base <= k < |w.ledger.branches| ==> k in w'.foreign || Ours(w', k)
  {
    forall i | 0 <= i < |w.requests| && w.requests[i].call == OfferCall && w.fates[i].Done?
      ensures w'.fates[i].branch.Some? && Pays(w', w'.fates[i].branch.value, w'.requests[i].recipient)
    {
      var k := w.fates[i].branch.value;
      assert Pays(w, k, w.requests[i].recipient);
      assert LedgerTheorems.SameBranch(w.ledger.branches[k], w'.ledger.branches[k]);
    }
    forall k | w.base <= k < |w.ledger.branches|
      ensures k in w'.foreign || Ours(w', k)
    {
      if k !in w.foreign {
        var i :| MadeBy(w, i, k);
        assert MadeBy(w', i, k);
      }
    }
  }

  lemma SameLedgerExtends(l: LedgerState)
    ensures LedgerTheorems.Extends(l, l)
  {
  }

  /** Steps that leave the ledger alone leave what was made alone. */
  lemma MadeStays(w: World, w': World)
    requires MadeFits(w) && w'.plan == w.plan && w'.base == w.base && w'.foreign == w.foreign
    requires w'.ledger == w.ledger && |w'.fates| == |w'.requests|
    requires |w.requests| <= |w'.requests| && forall i :: 0 <= i < |w.requests| ==>
               w'.requests[i] == w.requests[i] && (w.fates[i].Done? ==> w'.fates[i] == w.fates[i])
    requires forall i :: 0 <= i < |w'.requests| && w'.fates[i].Done? ==> i < |w.requests| && w.fates[i].Done?
    ensures MadeFits(w')
  {
    SameLedgerExtends(w.ledger);
    MadeFrame(w, w');
    hide Pays, Ours, LedgerTheorems.Extends;
  }

  function Sent(w: World, r: Request, clock: int): World {
    w.(journal := Reserve(w.journal, r.actor, r.recipient, r.call, clock), waiting := Some(|w.requests|),
       requests := w.requests + [r], fates := w.fates + [Open])
  }

  lemma SendKeepsJournal(w: World, r: Request, clock: int)
    requires JournalFits(w) && w.journal.inFlight == None && Sendable(w.plan, w.journal, r, clock)
    ensures JournalFits(Sent(w, r, clock))
  {
    hide RequestOk;
    var w' := Sent(w, r, clock);
    assert w'.requests[|w'.requests| - 1] == r;
  }

  lemma SendKeepsNonces(w: World, r: Request, clock: int)
    requires NoncesFit(w) && Sendable(w.plan, w.journal, r, clock)
    ensures NoncesFit(Sent(w, r, clock))
  {
    hide RequestOk;
    var w' := Sent(w, r, clock);
    forall i | 0 <= i < |w.requests| && w.requests[i].actor == r.actor
      ensures w.requests[i].nonce < r.nonce
    {
    }
  }

  lemma SendKeepsOffers(w: World, r: Request, clock: int)
    requires OffersFit(w) && w.journal.inFlight == None && Sendable(w.plan, w.journal, r, clock)
    ensures OffersFit(Sent(w, r, clock))
  {
    hide RequestOk;
    var w' := Sent(w, r, clock);
    forall i, j | 0 <= i < j < |w'.requests| && w'.requests[j].call == OfferCall
                  && OfferTo(w', i, w'.requests[j].recipient)
      ensures w'.fates[i].Refused?
    {
      assert w'.requests[i] == w.requests[i];
      if j < |w.requests| {
        assert OfferTo(w, i, w.requests[j].recipient);
      }
    }
  }

  lemma SendKeepsMade(w: World, r: Request, clock: int)
    requires MadeFits(w)
    ensures MadeFits(Sent(w, r, clock))
  {
    MadeStays(w, Sent(w, r, clock));
  }

  lemma TurnKeeps(w: World, recipient: Account, view: LedgerState, clock: int, w': World)
    requires WorldOk(w) && Next(w, TakeTurn(recipient, view, clock), w')
    ensures WorldOk(w')
  {
    TurnIs(w.plan, w.journal, recipient, view, clock);
    match FundTurn(w.plan, w.journal, recipient, view, clock) {
      case Stop(j) =>
        hide FundTurn, WorldOk, Reconciled;
        if j == w.journal { assert w' == w; } else { ReconciledKeeps(w, j); }
      case Funded(j) =>
        hide FundTurn, WorldOk, Reconciled;
        ReconciledKeeps(w, j);
      case Send(j, r) =>
        var j1 := Reconcile(w.plan, w.journal, recipient, view).value;
        hide FundTurn, Reconcile, RequestOk;
        ReconciledKeeps(w, j1);
        var v := w.(journal := j1);
        assert w' == Sent(v, r, clock);
        SendKeeps(v, r, clock);
    }
  }

  lemma SendKeeps(w: World, r: Request, clock: int)
    requires WorldOk(w) && w.journal.inFlight == None && Sendable(w.plan, w.journal, r, clock)
    ensures WorldOk(Sent(w, r, clock))
  {
    hide LedgerOk, JournalFits, NoncesFit, OffersFit, MadeFits, Sendable, PlanOk;
    SendKeepsJournal(w, r, clock);
    SendKeepsNonces(w, r, clock);
    SendKeepsOffers(w, r, clock);
    SendKeepsMade(w, r, clock);
    LedgerFrame(w, Sent(w, r, clock));
  }

  /** Answers resolve the last request: a success makes the recipient known, a refusal is final. */
  lemma DeliverKeeps(w: World, answer: Answer, w': World)
    requires WorldOk(w) && Next(w, Deliver(answer), w')
    ensures WorldOk(w')
  {
    hide LedgerOk, PlanOk, Distinct, RequestOk;
    assert LedgerOk(w') by { LedgerFrame(w, w'); }
    assert MadeFits(w') by { MadeStays(w, w'); }
    hide MadeFits;
    assert w'.journal.lastNonces == w.journal.lastNonces;
    assert forall r :: r in w.journal.known ==> r in w'.journal.known;
    forall i, j | 0 <= i < j < |w'.requests| && w'.requests[j].call == OfferCall
                  && OfferTo(w', i, w'.requests[j].recipient)
      ensures w'.fates[i].Refused?
    {
      assert OfferTo(w, i, w.requests[j].recipient);
    }
  }

  lemma CrashKeeps(w: World, w': World)
    requires WorldOk(w) && w' == w.(waiting := None)
    ensures WorldOk(w')
  {
    hide LedgerOk, PlanOk, RequestOk;
    assert LedgerOk(w') by { LedgerFrame(w, w'); }
    assert MadeFits(w') by { MadeStays(w, w'); }
    hide MadeFits;
    assert OffersFit(w') by { OffersFrame(w, w'); }
  }

  /** Offers stay in order while the journal and the requests do, and refusals stay. */
  lemma OffersFrame(w: World, w': World)
    requires OffersFit(w) && w'.journal == w.journal && w'.requests == w.requests && |w'.fates| == |w.fates|
    requires forall i :: 0 <= i < |w.fates| && w.fates[i].Refused? ==> w'.fates[i].Refused?
    ensures OffersFit(w')
  {
    forall i, j | 0 <= i < j < |w'.requests| && w'.requests[j].call == OfferCall
                  && OfferTo(w', i, w'.requests[j].recipient)
      ensures w'.fates[i].Refused?
    {
      assert OfferTo(w, i, w.requests[j].recipient);
    }
  }

  lemma RefuseKeeps(w: World, i: nat, w': World)
    requires WorldOk(w) && Next(w, Refuse(i), w')
    ensures WorldOk(w')
  {
    hide LedgerOk, PlanOk, RequestOk;
    assert LedgerOk(w') by { LedgerFrame(w, w'); }
    assert OffersFit(w') by { OffersFrame(w, w'); }
    MadeStays(w, w');
  }

  /** The call appended the offer's branch, or no branch at all. */
  ghost predicate Appended(l: LedgerState, l': LedgerState, op: Op) {
    && LedgerTheorems.Extends(l, l')
    && if op.Offer? then
         && |l'.branches| == |l.branches| + 1
         && l'.branches[|l.branches|].sender == op.sender && l'.branches[|l.branches|].receiver == op.receiver
         && l'.branches[|l.branches|].value == op.value
       else |l'.branches| == |l.branches|
  }

  /** One ledger call: branches keep their place, and an offer adds its own at the end. */
  lemma LedgerStep(w: World, op: Op)
    requires LedgerOk(w) && Execute(w.ledger, op).Ok?
    ensures var l' := Execute(w.ledger, op).value;
            && LedgerOk(w.(ledger := l'))
            && Appended(w.ledger, l', op)
  {
    assert BranchesOk(w.ledger) && NothingOverdue(w.ledger) && Inv(w.ledger, w.opening);
    hide Inv, BranchesOk, NothingOverdue, Execute;
    ExecuteKeeps(w.ledger, w.opening, op);
    LedgerTheorems.ExecuteExtends(w.ledger, op);
  }

  lemma ApplyKeepsMade(w: World, i: nat, l': LedgerState, w': World)
    requires MadeFits(w) && i < |w.requests| && w.fates[i].Open? && RequestOk(w.plan, w.requests[i])
    requires Appended(w.ledger, l', w.requests[i].op)
    requires w' == w.(ledger := l', fates := w.fates[i := Done(
                        if w.requests[i].op.Offer? then Some(|w.ledger.branches|) else None)])
    ensures MadeFits(w')
  {
    hide Ours, Pays;
    MadeFrame(w, w');
    var k := |w.ledger.branches|;
    if w.requests[i].call == OfferCall {
      NewBranchIsOurs(w', i, k);
    }
  }

  lemma NewBranchIsOurs(w: World, i: nat, k: nat)
    requires i < |w.requests| && i < |w.fates| && RequestOk(w.plan, w.requests[i])
    requires w.requests[i].call == OfferCall && w.fates[i] == Done(Some(k)) && w.base <= k < |w.ledger.branches|
    requires var b := w.ledger.branches[k]; var op := w.requests[i].op;
             b.sender == op.sender && b.receiver == op.receiver && b.value == op.value
    ensures Pays(w, k, w.requests[i].recipient) && Ours(w, k)
  {
    assert MadeBy(w, i, k);
  }

  /** The journal and the nonces do not depend on the ledger or on fates. */
  lemma JournalFrame(w: World, w': World)
    requires JournalFits(w) && NoncesFit(w) && w'.plan == w.plan && w'.journal == w.journal
    requires w'.waiting == w.waiting && w'.requests == w.requests && |w'.fates| == |w.fates|
    ensures JournalFits(w') && NoncesFit(w')
  {
    hide RequestOk;
  }

  lemma ApplyKeeps(w: World, i: nat, w': World)
    requires WorldOk(w) && Next(w, Apply(i), w')
    ensures WorldOk(w')
  {
    assert RequestOk(w.plan, w.requests[i]);
    hide LedgerOk, PlanOk, RequestOk, MadeFits, OffersFit, JournalFits, NoncesFit, Execute, Appended;
    assert |w.fates| == |w.requests| by { FatesMatch(w); }
    LedgerStep(w, w.requests[i].op);
    LedgerFrame(w.(ledger := w'.ledger), w');
    ApplyKeepsMade(w, i, w'.ledger, w');
    OffersFrame(w, w');
    JournalFrame(w, w');
  }

  lemma FatesMatch(w: World)
    requires OffersFit(w)
    ensures |w.fates| == |w.requests|
  {
  }

  lemma OtherKeepsMade(w: World, op: Op, l': LedgerState, w': World)
    requires MadeFits(w) && Appended(w.ledger, l', op)
    requires w' == w.(ledger := l', foreign := if op.Offer? then w.foreign + {|w.ledger.branches|} else w.foreign)
    ensures MadeFits(w')
  {
    hide Ours, Pays;
    MadeFrame(w, w');
  }

  lemma OtherKeeps(w: World, op: Op, w': World)
    requires WorldOk(w) && Next(w, Other(op), w')
    ensures WorldOk(w')
  {
    hide LedgerOk, PlanOk, RequestOk, MadeFits, OffersFit, JournalFits, NoncesFit, Execute, Appended;
    LedgerStep(w, op);
    LedgerFrame(w.(ledger := w'.ledger), w');
    OtherKeepsMade(w, op, w'.ledger, w');
    OffersFrame(w, w');
    JournalFrame(w, w');
  }

  lemma NextKeepsWorld(w: World, step: Step, w': World)
    requires WorldOk(w) && Next(w, step, w')
    ensures WorldOk(w') && w'.plan == w.plan
  {
    assert w'.plan == w.plan;
    match step {
      case TakeTurn(recipient, view, clock) =>
        hide WorldOk, FundTurn;
        TurnKeeps(w, recipient, view, clock, w');
      case ReconcileThenCrash(recipient, view) =>
        ReconcileIs(w.plan, w.journal, recipient, view);
        hide WorldOk, Reconcile, Reconciled;
        ReconciledKeeps(w, w'.journal);
      case Crash =>
        hide WorldOk;
        CrashKeeps(w, w');
      case Apply(i) =>
        hide WorldOk, Execute;
        ApplyKeeps(w, i, w');
      case Refuse(i) =>
        hide WorldOk;
        RefuseKeeps(w, i, w');
      case Deliver(answer) =>
        hide WorldOk;
        DeliverKeeps(w, answer, w');
      case Other(op) =>
        hide WorldOk, Execute;
        OtherKeeps(w, op, w');
    }
  }

  lemma StartIsOk(w: World)
    requires Start(w)
    ensures WorldOk(w)
  {
    hide LedgerOk, PlanOk;
  }

  lemma {:induction false} RunKeepsWorld(e: Execution, k: nat)
    requires IsRun(e) && k < |e.worlds|
    ensures WorldOk(e.worlds[k]) && e.worlds[k].plan == e.worlds[0].plan
  {
    hide WorldOk, Next, Start;
    if k == 0 {
      StartIsOk(e.worlds[0]);
    } else {
      RunKeepsWorld(e, k - 1);
      NextKeepsWorld(e.worlds[k - 1], e.steps[k - 1], e.worlds[k]);
    }
  }

  // ----- Never pays twice -----

  /** Two offers to one recipient: the earlier one was refused. */
  lemma OffersDiffer(w: World, i: nat, j: nat)
    requires OffersFit(w) && i < j < |w.requests|
    requires w.requests[i].call == OfferCall && w.requests[j].call == OfferCall && !w.fates[i].Refused?
    ensures w.requests[i].recipient != w.requests[j].recipient
  {
    assert OfferTo(w, i, w.requests[i].recipient);
  }

  lemma NewBranchesDiffer(w: World, k: nat, l: nat)
    requires OffersFit(w) && MadeFits(w)
    requires w.base <= k < l < |w.ledger.branches| && k !in w.foreign && l !in w.foreign
    ensures w.ledger.branches[k].receiver != w.ledger.branches[l].receiver
    ensures Ours(w, k) && Ours(w, l)
  {
    assert Ours(w, k) && Ours(w, l);
    var i: nat :| MadeBy(w, i, k);
    var j: nat :| MadeBy(w, j, l);
    assert Pays(w, k, w.requests[i].recipient) && Pays(w, l, w.requests[j].recipient);
    hide MadeFits, OffersFit;
    if i < j { OffersDiffer(w, i, j); } else { OffersDiffer(w, j, i); }
  }

  /**
   Whatever crashes, is lost, is late or is misreported, the plan creates at most one branch
   for a recipient: of any two branches to one account, all but one were there before the
   plan or were offered by another client.
   */
  lemma {:induction false} NeverPaysTwice(e: Execution, n: nat)
    requires IsRun(e) && n < |e.worlds|
    ensures var w := e.worlds[n];
            forall k, l :: w.base <= k < l < |w.ledger.branches| && k !in w.foreign && l !in w.foreign ==>
              && w.ledger.branches[k].receiver != w.ledger.branches[l].receiver
              && Ours(w, k) && Ours(w, l)
  {
    RunKeepsWorld(e, n);
    var w := e.worlds[n];
    hide IsRun, LedgerOk, NoncesFit, JournalFits, PlanOk, OffersFit, MadeFits, Ours;
    forall k, l | w.base <= k < l < |w.ledger.branches| && k !in w.foreign && l !in w.foreign
      ensures w.ledger.branches[k].receiver != w.ledger.branches[l].receiver && Ours(w, k) && Ours(w, l)
    {
      NewBranchesDiffer(w, k, l);
    }
  }

  /** What the plan's offers have put at stake: the values of the branches they made. */
  ghost function OfferedTotal(w: World, n: nat): int
    requires n <= |w.requests| && |w.fates| == |w.requests|
  {
    if n == 0 then 0
    else
      OfferedTotal(w, n - 1)
      + if w.requests[n - 1].call == OfferCall && w.fates[n - 1].Done? && w.fates[n - 1].branch.Some?
           && w.fates[n - 1].branch.value < |w.ledger.branches|
        then w.ledger.branches[w.fates[n - 1].branch.value].value else 0
  }

  ghost function PaidBefore(w: World, n: nat): set<Account>
    requires n <= |w.requests| && |w.fates| == |w.requests|
  {
    set i | 0 <= i < n && w.requests[i].call == OfferCall && w.fates[i].Done? :: w.requests[i].recipient
  }

  lemma {:induction false} OfferedIsPerRecipient(w: World, n: nat)
    requires OffersFit(w) && MadeFits(w) && n <= |w.requests|
    ensures OfferedTotal(w, n) == |PaidBefore(w, n)| * w.plan.amount
  {
    if n == 0 {
      assert PaidBefore(w, n) == {};
    } else {
      OfferedIsPerRecipient(w, n - 1);
      if w.requests[n - 1].call == OfferCall && w.fates[n - 1].Done? {
        PaidGrows(w, n);
        OneMoreOffer(w, n);
        hide *;
        SetGrows(PaidBefore(w, n - 1), w.requests[n - 1].recipient);
        Distributes(|PaidBefore(w, n - 1)|, w.plan.amount);
      } else {
        NoMoreOffer(w, n);
        hide *;
      }
    }
  }

  lemma SetGrows(s: set<Account>, a: Account)
    requires a !in s
    ensures |s + {a}| == |s| + 1
  {
  }

  lemma Distributes(n: nat, amount: int)
    ensures (n + 1) * amount == n * amount + amount
  {
  }

  lemma NoMoreOffer(w: World, n: nat)
    requires OffersFit(w) && 0 < n <= |w.requests|
    requires !(w.requests[n - 1].call == OfferCall && w.fates[n - 1].Done?)
    ensures OfferedTotal(w, n) == OfferedTotal(w, n - 1) && PaidBefore(w, n) == PaidBefore(w, n - 1)
  {
  }

  lemma OneMoreOffer(w: World, n: nat)
    requires MadeFits(w) && 0 < n <= |w.requests|
    requires w.requests[n - 1].call == OfferCall && w.fates[n - 1].Done?
    ensures OfferedTotal(w, n) == OfferedTotal(w, n - 1) + w.plan.amount
  {
    assert Pays(w, w.fates[n - 1].branch.value, w.requests[n - 1].recipient);
    hide MadeFits;
  }

  /** Another applied offer is for a recipient not paid before. */
  lemma PaidGrows(w: World, n: nat)
    requires OffersFit(w) && 0 < n <= |w.requests|
    requires w.requests[n - 1].call == OfferCall && w.fates[n - 1].Done?
    ensures PaidBefore(w, n) == PaidBefore(w, n - 1) + {w.requests[n - 1].recipient}
    ensures w.requests[n - 1].recipient !in PaidBefore(w, n - 1)
  {
    forall i | 0 <= i < n - 1 && w.requests[i].call == OfferCall && w.fates[i].Done?
      ensures w.requests[i].recipient != w.requests[n - 1].recipient
    {
      OffersDiffer(w, i, n - 1);
    }
  }

  lemma {:induction false} RecipientSetSize(names: seq<Account>, s: set<Account>)
    requires forall a :: a in s ==> a in names
    ensures |s| <= |names|
  {
    if names == [] {
      assert s == {};
    } else {
      var last := names[|names| - 1];
      assert forall a :: a in names ==> a == last || a in names[..|names| - 1];
      RecipientSetSize(names[..|names| - 1], s - {last});
      assert s <= (s - {last}) + {last};
    }
  }

  lemma PaidAreRecipients(w: World)
    requires JournalFits(w) && PlanOk(w.plan)
    ensures |PaidBefore(w, |w.requests|)| * w.plan.amount <= w.plan.total
  {
    var paid := PaidBefore(w, |w.requests|);
    forall a | a in paid
      ensures a in w.plan.recipients
    {
      var i :| 0 <= i < |w.requests| && w.requests[i].recipient == a;
      assert RequestOk(w.plan, w.requests[i]);
    }
    hide JournalFits, PaidBefore;
    RecipientSetSize(w.plan.recipients, paid);
    assert |paid| * w.plan.amount <= |w.plan.recipients| * w.plan.amount;
  }

  /** The plan never offers more than its total, and offers exactly one amount per paid recipient. */
  lemma {:induction false} NeverOverspends(e: Execution, n: nat)
    requires IsRun(e) && n < |e.worlds|
    ensures var w := e.worlds[n];
            && |w.fates| == |w.requests|
            && OfferedTotal(w, |w.requests|) == |PaidBefore(w, |w.requests|)| * w.plan.amount
            && OfferedTotal(w, |w.requests|) <= w.plan.total
  {
    RunKeepsWorld(e, n);
    var w := e.worlds[n];
    assert |w.fates| == |w.requests|;
    hide IsRun, LedgerOk, NoncesFit, JournalFits, OffersFit, MadeFits, PaidBefore, OfferedTotal, PlanOk;
    OfferedIsPerRecipient(w, |w.requests|);
    PaidAreRecipients(w);
  }

  /** Nonces never repeat for an actor, even across restarts and a clock set back. */
  lemma {:induction false} NoncesStrictlyIncrease(e: Execution, n: nat)
    requires IsRun(e) && n < |e.worlds|
    ensures var requests := e.worlds[n].requests;
            forall i, j :: 0 <= i < j < |requests| && requests[i].actor == requests[j].actor ==>
              requests[i].nonce < requests[j].nonce
  {
    hide Next;
    RunKeepsWorld(e, n);
  }
}

/**
 The canonical ledger with its two-party escrow branches, as values.
 SHA-256 digests are modelled as constructor terms: equal digests have equal preimages.
 The 16-digit truncation of branch ids is likewise assumed collision-free.
 */
module LedgerModel {
  import opened Common

  type Account = string

  /** A commit payload, given by its canonical JSON text. */
  type Payload = string

  const FINALITY_ROUNDS := 3
  const LEDGER_SCHEMA := "splitchain-ledger/v1"

  datatype Genesis = Genesis(
    networkId: string,
    maxSupply: int,
    allocations: map<Account, int>,
    lockedAccounts: set<Account>)

  datatype TxDigest = TxDigest(payload: Payload)

  /** A head digest: the hashed document of one canonical block. */
  datatype Digest =
    | BalancesGenesis(initial: map<Account, int>)
    | ConfiguredGenesis(genesis: Genesis)
    | TransferBlock(branchId: BranchId, height: int, parent: Digest, tx: Option<TxDigest>)
    | RegisterBlock(account: Account, height: int, parent: Digest)

  datatype BranchId = BranchId(
    nonce: int, originDigest: Digest, originHeight: int,
    receiver: Account, round: int, sender: Account, value: int)

  datatype BranchState = Offered | Accepted | Committed | Final | Cancelled | Expired

  datatype Branch = Branch(
    id: BranchId, sender: Account, receiver: Account, value: int, stake: int,
    createdRound: int, expiresRound: int, originHeight: int, originDigest: Digest,
    state: BranchState, acceptedRound: Option<int>, committedRound: Option<int>,
    tx: Option<TxDigest>)
  {
    predicate Active() {
      state.Offered? || state.Accepted? || state.Committed?
    }
  }

  /** One entry of the `finalized` list. */
  datatype Receipt = Receipt(id: BranchId, tx: Option<TxDigest>)

  /** `branches` keeps the insertion order of the source's dictionary. */
  datatype LedgerState = LedgerState(
    genesis: Option<Genesis>,
    round: int,
    balances: map<Account, int>,
    locked: map<Account, int>,
    branches: seq<Branch>,
    finalized: seq<Receipt>,
    height: int,
    digest: Digest,
    history: map<int, Digest>)

  datatype Op =
    | Offer(sender: Account, receiver: Account, value: int, ttl: int)
    | Accept(branchId: BranchId, receiver: Account)
    | Commit(branchId: BranchId, sender: Account, payload: Payload)
    | Cancel(branchId: BranchId, actor: Account)
    | Advance(rounds: int)
    | Register(account: Account)

  // ---------------------------------------------------------------- construction

  function GenesisDigest(genesis: Option<Genesis>, balances: map<Account, int>): Digest {
    match genesis
    case Some(g) => ConfiguredGenesis(g)
    case None => BalancesGenesis(balances)
  }

  function NewLedger(genesis: Option<Genesis>, balances: map<Account, int>): LedgerState {
    var initial := if genesis.Some? then genesis.value.allocations else balances;
    var digest := GenesisDigest(genesis, initial);
    LedgerState(genesis, 0, initial, map[], [], [], 0, digest, map[0 := digest])
  }

  /** ASCII letters, digits, hyphens and underscores. */
  predicate NetworkChar(c: char) {
    'a' <= c <= 'z' || 'A' <= c <= 'Z' || '0' <= c <= '9' || c == '-' || c == '_'
  }

  predicate NetworkIdOk(id: string) {
    1 <= |id| <= 64 && forall i :: 0 <= i < |id| ==> NetworkChar(id[i])
  }

  /** The checks a genesis document passes before it is used. */
  ghost predicate GenesisValid(g: Genesis) {
    && NetworkIdOk(g.networkId)
    && g.maxSupply > 0
    && g.allocations != map[]
    && (forall a :: a in g.allocations ==> a != "" && g.allocations[a] >= 0)
    && Sum(g.allocations) <= g.maxSupply
    && g.lockedAccounts <= g.allocations.Keys
  }

  // ---------------------------------------------------------------- operations

  function Available(l: LedgerState, a: Account): int {
    Get(l.balances, a) - Get(l.locked, a)
  }

  /** Dictionary lookup by branch id. */
  function Find(bs: seq<Branch>, id: BranchId): (r: Option<nat>)
    ensures r.Some? ==> r.value < |bs| && bs[r.value].id == id
    ensures r.None? ==> forall i :: 0 <= i < |bs| ==> bs[i].id != id
  {
    if bs == [] then None
    else if bs[|bs| - 1].id == id then Some(|bs| - 1)
    else Find(bs[..|bs| - 1], id)
  }

  /** Dictionary assignment: an existing key keeps its place. */
  function Put(bs: seq<Branch>, b: Branch): seq<Branch> {
    match Find(bs, b.id)
    case Some(i) => bs[i := b]
    case None => bs + [b]
  }

  predicate NameChar(c: char) {
    'a' <= c <= 'z' || '0' <= c <= '9' || c == '_'
  }

  /** `[a-z][a-z0-9_]{2,31}`, outside the reserved `testnet_` prefix. */
  predicate Registrable(account: Account) {
    && 3 <= |account| <= 32
    && 'a' <= account[0] <= 'z'
    && (forall i :: 0 <= i < |account| ==> NameChar(account[i]))
    && !("testnet_" <= account)
  }

  function AppendBlock(l: LedgerState, block: Digest): LedgerState {
    l.(height := l.height + 1, digest := block, history := l.history[l.height + 1 := block])
  }

  function DoRegister(l: LedgerState, account: Account): Outcome<LedgerState> {
    if !Registrable(account) || account in l.balances then Err("invalid or existing account")
    else Ok(AppendBlock(l.(balances := l.balances[account := 0]),
                        RegisterBlock(account, l.height + 1, l.digest)))
  }

  function NewBranch(l: LedgerState, sender: Account, receiver: Account, value: int, ttl: int): Branch {
    Branch(BranchId(|l.branches|, l.digest, l.height, receiver, l.round, sender, value),
           sender, receiver, value, value, l.round, l.round + ttl, l.height, l.digest,
           Offered, None, None, None)
  }

  function DoOffer(l: LedgerState, sender: Account, receiver: Account, value: int, ttl: int): Outcome<LedgerState> {
    if l.genesis.Some? && sender in l.genesis.value.lockedAccounts then Err("genesis locked account cannot offer")
    else if value <= 0 || ttl < FINALITY_ROUNDS then Err("value must be positive and ttl must cover finality")
    else if sender == receiver then Err("sender and receiver must differ")
    else if receiver !in l.balances then Err("unknown receiver account")
    else if Available(l, sender) < value * 2 then Err("sender needs value plus equal branch stake")
    else Ok(l.(branches := Put(l.branches, NewBranch(l, sender, receiver, value, ttl)),
               locked := l.locked[sender := Get(l.locked, sender) + value * 2]))
  }

  function DoAccept(l: LedgerState, id: BranchId, receiver: Account): Outcome<LedgerState> {
    match Find(l.branches, id)
    case None => Err("unknown branch")
    case Some(i) =>
      var b := l.branches[i];
      if b.state != Offered then Err("invalid transition")
      else if l.round >= b.expiresRound then Err("branch expired")
      else if receiver != b.receiver then Err("only the named receiver can accept")
      else Ok(l.(branches := l.branches[i := b.(state := Accepted, acceptedRound := Some(l.round))]))
  }

  function DoCommit(l: LedgerState, id: BranchId, sender: Account, payload: Payload): Outcome<LedgerState> {
    match Find(l.branches, id)
    case None => Err("unknown branch")
    case Some(i) =>
      var b := l.branches[i];
      if b.state != Accepted then Err("invalid transition")
      else if l.round >= b.expiresRound then Err("branch expired")
      else if sender != b.sender then Err("only the sender can commit")
      else Ok(l.(branches := l.branches[i := b.(
                   state := Committed, committedRound := Some(l.round), tx := Some(TxDigest(payload)))]))
  }

  function Unlock(locked: map<Account, int>, b: Branch): map<Account, int> {
    locked[b.sender := Get(locked, b.sender) - (b.value + b.stake)]
  }

  function DoCancel(l: LedgerState, id: BranchId, actor: Account): Outcome<LedgerState> {
    match Find(l.branches, id)
    case None => Err("unknown branch")
    case Some(i) =>
      var b := l.branches[i];
      if !(b.state.Offered? || b.state.Accepted?) then Err("invalid transition")
      else if actor != b.sender && actor != b.receiver then Err("only a participant can cancel")
      else Ok(l.(branches := l.branches[i := b.(state := Cancelled)], locked := Unlock(l.locked, b)))
  }

  function Transfer(balances: map<Account, int>, sender: Account, receiver: Account, value: int): map<Account, int> {
    var debited := balances[sender := Get(balances, sender) - value];
    debited[receiver := Get(debited, receiver) + value]
  }

  predicate Overdue(b: Branch, round: int) {
    || ((b.state.Offered? || b.state.Accepted?) && round >= b.expiresRound)
    || (b.state.Committed? && b.committedRound.Some? && round - b.committedRound.value >= FINALITY_ROUNDS)
  }

  /** What one round's visit does to branch `i`: expire it, finalise it, or leave it. */
  function Settle(l: LedgerState, i: nat): LedgerState
    requires i < |l.branches|
  {
    var b := l.branches[i];
    if !Overdue(b, l.round) then l
    else if b.state.Committed? then
      AppendBlock(
        l.(balances := Transfer(l.balances, b.sender, b.receiver, b.value),
           locked := Unlock(l.locked, b),
           branches := l.branches[i := b.(state := Final)],
           finalized := l.finalized + [Receipt(b.id, b.tx)]),
        TransferBlock(b.id, l.height + 1, l.digest, b.tx))
    else l.(locked := Unlock(l.locked, b), branches := l.branches[i := b.(state := Expired)])
  }

  /** A ledger and the branches a call changed, in order. */
  datatype Advanced = Advanced(ledger: LedgerState, changed: seq<Branch>)

  function SettleFrom(l: LedgerState, i: nat): Advanced
    requires i <= |l.branches|
    decreases |l.branches| - i
  {
    if i == |l.branches| then Advanced(l, [])
    else
      var l' := Settle(l, i);
      var rest := SettleFrom(l', i + 1);
      Advanced(rest.ledger, (if Overdue(l.branches[i], l.round) then [l'.branches[i]] else []) + rest.changed)
  }

  function Tick(l: LedgerState): Advanced {
    SettleFrom(l.(round := l.round + 1), 0)
  }

  function AdvanceBy(l: LedgerState, rounds: nat): Advanced
    decreases rounds
  {
    if rounds == 0 then Advanced(l, [])
    else
      var first := Tick(l);
      var rest := AdvanceBy(first.ledger, rounds - 1);
      Advanced(rest.ledger, first.changed + rest.changed)
  }

  /** A visit of this branch would fail: the source asserts that a committed branch has its round. */
  predicate RoundMissing(b: Branch) {
    b.state.Committed? && b.committedRound.None?
  }

  /** How far an advance came, the branches it changed, and whether a visit failed. */
  datatype Attempted = Attempted(ledger: LedgerState, changed: seq<Branch>, failed: bool)

  function TrySettleFrom(l: LedgerState, i: nat): Attempted
    requires i <= |l.branches|
    decreases |l.branches| - i
  {
    if i == |l.branches| then Attempted(l, [], false)
    else if RoundMissing(l.branches[i]) then Attempted(l, [], true)
    else
      var l' := Settle(l, i);
      var rest := TrySettleFrom(l', i + 1);
      rest.(changed := (if Overdue(l.branches[i], l.round) then [l'.branches[i]] else []) + rest.changed)
  }

  /** An advance as it runs: the first failed visit ends it, with what was done so far in place. */
  function TryAdvance(l: LedgerState, rounds: nat): Attempted
    decreases rounds
  {
    if rounds == 0 then Attempted(l, [], false)
    else
      var first := TrySettleFrom(l.(round := l.round + 1), 0);
      if first.failed then first
      else
        var rest := TryAdvance(first.ledger, rounds - 1);
        rest.(changed := first.changed + rest.changed)
  }

  function Execute(l: LedgerState, op: Op): Outcome<LedgerState> {
    match op
    case Offer(s, r, v, ttl) => DoOffer(l, s, r, v, ttl)
    case Accept(id, r) => DoAccept(l, id, r)
    case Commit(id, s, p) => DoCommit(l, id, s, p)
    case Cancel(id, a) => DoCancel(l, id, a)
    case Advance(n) =>
      if n < 1 then Err("rounds must be positive")
      else if TryAdvance(l, n).failed then Err("committed branch without a round")
      else Ok(AdvanceBy(l, n).ledger)
    case Register(a) => DoRegister(l, a)
  }

  /** Any sequence of calls; a refused call leaves the ledger as it was. */
  function Run(l: LedgerState, ops: seq<Op>): LedgerState {
    if ops == [] then l
    else
      var before := Run(l, ops[..|ops| - 1]);
      match Execute(before, ops[|ops| - 1])
      case Ok(after) => after
      case Err(_) => before
  }
}

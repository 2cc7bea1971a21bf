/** Licence redemption by concurrent requests that lock the wallet row, then the licence row. */
module Redemption {
  import opened Text
  import opened Totals
  import opened Rows
  import opened Runs

  /** A row of `license_keys`, keyed by its unique key hash. */
  datatype Licence = Licence(
    service: string, credits: int, maxConcurrent: int, active: bool, expires: Option<int>,
    redeemedAt: Option<int>, redeemedBy: Option<string>)

  /** A row of `wallet_redemptions`; `licence` is the hash of the licence it names. */
  datatype Redeemed = Redeemed(wallet: string, licence: string, service: string, credits: int)

  datatype Tables = Tables(
    wallets: map<string, string>, ents: map<EntKey, Entitlement>,
    licences: map<string, Licence>, redemptions: map<string, Redeemed>)

  datatype Failure = WalletNotFound | LicenceNotFound | LicenceExpired | LicenceUsed

  function LowerTrim(address: string): string {
    ToLower(TrimSpace(address))
  }

  predicate IsRedeemed(l: Licence) {
    l.redeemedAt.Some? || l.redeemedBy.Some?
  }

  /** licenseByHashForWalletRedeem and the checks that follow it. */
  function Refusal(licences: map<string, Licence>, hash: string, now: int): Option<Failure> {
    if hash !in licences || !licences[hash].active then Some(LicenceNotFound)
    else
      var l := licences[hash];
      if l.expires.Some? && l.expires.value <= now then Some(LicenceExpired)
      else if IsRedeemed(l) then Some(LicenceUsed)
      else if l.credits <= 0 then Some(LicenceNotFound)
      else None
  }

  /** The three writes of a redemption. */
  function Redeem(t: Tables, id: string, wallet: string, hash: string, now: int): Tables
    requires hash in t.licences
  {
    var l := t.licences[hash];
    t.(ents := Grant(t.ents, EntKey(wallet, l.service), l.credits, EffectiveMax(l.maxConcurrent)),
       licences := t.licences[hash := l.(redeemedAt := Some(now), redeemedBy := Some(wallet))],
       redemptions := t.redemptions[id := Redeemed(wallet, hash, l.service, l.credits)])
  }

  // ---- concurrent redeemers ----

  datatype Phase = Started | HasWallet(wallet: string) | Validated(wallet: string)

  /** A request, keyed by the id of the redemption row it will insert. */
  datatype Redeemer = Redeemer(address: string, hash: string, now: int, phase: Phase)

  /** `spent` is history: what creations took from each entitlement, less what refunds gave back. */
  datatype State = State(
    t: Tables, walletLocks: map<string, string>, licenceLocks: map<string, string>,
    redeemers: map<string, Redeemer>, spent: map<EntKey, int>)

  datatype Action =
    | NewWallet(address: string, wallet: string)
    | NewLicence(hash: string, licence: Licence)
    | DeleteLicence(hash: string)
    | Spend(key: EntKey, amount: int)
    | Begin(id: string, address: string, hash: string, now: int)
    | LockWallet(id: string)
    | LockLicence(id: string)
    | Commit(id: string)
    | Abort(id: string)

  function SpentOn(spent: map<EntKey, int>, k: EntKey): int {
    if k in spent then spent[k] else 0
  }

  function Drop(s: State, id: string): State
    requires id in s.redeemers
  {
    var r := s.redeemers[id];
    s.(redeemers := s.redeemers - {id},
       walletLocks := if r.phase.Started? then s.walletLocks else s.walletLocks - {r.phase.wallet},
       licenceLocks := if r.phase.Validated? then s.licenceLocks - {r.hash} else s.licenceLocks)
  }

  predicate Enabled(s: State, a: Action) {
    match a
    case NewWallet(address, _) => address !in s.t.wallets
    case NewLicence(hash, licence) => hash !in s.t.licences && !IsRedeemed(licence)
    case DeleteLicence(hash) => hash in s.t.licences && hash !in s.licenceLocks
    case Spend(key, _) => key in s.t.ents
    case Begin(id, _, _, _) => id !in s.redeemers && id !in s.t.redemptions
    case LockWallet(id) =>
      && id in s.redeemers && s.redeemers[id].phase.Started?
      && (LowerTrim(s.redeemers[id].address) in s.t.wallets ==>
            s.t.wallets[LowerTrim(s.redeemers[id].address)] !in s.walletLocks)
    case LockLicence(id) =>
      id in s.redeemers && s.redeemers[id].phase.HasWallet? && s.redeemers[id].hash !in s.licenceLocks
    case Commit(id) => id in s.redeemers && s.redeemers[id].phase.Validated? && s.redeemers[id].hash in s.t.licences
    case Abort(id) => id in s.redeemers
  }

  function DoLockWallet(s: State, id: string): State
    requires id in s.redeemers
  {
    var r := s.redeemers[id];
    if LowerTrim(r.address) !in s.t.wallets then Drop(s, id)
    else
      var wallet := s.t.wallets[LowerTrim(r.address)];
      s.(redeemers := s.redeemers[id := r.(phase := HasWallet(wallet))], walletLocks := s.walletLocks[wallet := id])
  }

  /** The licence is re-read under its lock. */
  function DoLockLicence(s: State, id: string): State
    requires id in s.redeemers && s.redeemers[id].phase.HasWallet?
  {
    var r := s.redeemers[id];
    if Refusal(s.t.licences, r.hash, r.now).Some? then Drop(s, id)
    else s.(redeemers := s.redeemers[id := r.(phase := Validated(r.phase.wallet))],
            licenceLocks := s.licenceLocks[r.hash := id])
  }

  function DoCommit(s: State, id: string): State
    requires id in s.redeemers && s.redeemers[id].phase.Validated? && s.redeemers[id].hash in s.t.licences
  {
    var r := s.redeemers[id];
    Drop(s, id).(t := Redeem(s.t, id, r.phase.wallet, r.hash, r.now))
  }

  function Debited(ents: map<EntKey, Entitlement>, key: EntKey, amount: int): map<EntKey, Entitlement>
    requires key in ents
  {
    ents[key := ents[key].(remaining := ents[key].remaining - amount)]
  }

  function WithSpent(spent: map<EntKey, int>, key: EntKey, amount: int): map<EntKey, int> {
    spent[key := SpentOn(spent, key) + amount]
  }

  /** A debit, or a refund when the amount is negative. */
  function DoSpend(s: State, key: EntKey, amount: int): State
    requires key in s.t.ents
  {
    s.(t := s.t.(ents := Debited(s.t.ents, key, amount)), spent := WithSpent(s.spent, key, amount))
  }

  function Apply(s: State, a: Action): State
    requires Enabled(s, a)
  {
    match a
    case NewWallet(address, wallet) => s.(t := s.t.(wallets := s.t.wallets[address := wallet]))
    case NewLicence(hash, licence) => s.(t := s.t.(licences := s.t.licences[hash := licence]))
    case DeleteLicence(hash) => s.(t := s.t.(licences := s.t.licences[hash := s.t.licences[hash].(active := false)]))
    case Spend(key, amount) => DoSpend(s, key, amount)
    case Begin(id, address, hash, now) => s.(redeemers := s.redeemers[id := Redeemer(address, hash, now, Started)])
    case LockWallet(id) => DoLockWallet(s, id)
    case LockLicence(id) => DoLockLicence(s, id)
    case Commit(id) => DoCommit(s, id)
    case Abort(id) => Drop(s, id)
  }

  function Initial(): State {
    State(Tables(map[], map[], map[], map[]), map[], map[], map[], map[])
  }

  ghost predicate Step(s: State, a: Action, u: State) {
    Enabled(s, a) && u == Apply(s, a)
  }

  ghost predicate IsRun(states: seq<State>, actions: seq<Action>) {
    Follows(Step, states, actions) && states[0] == Initial()
  }

  // ---- what every run keeps ----

  /** A validated request holds its licence, which is still unredeemed and worth something. */
  ghost predicate LocksOk(s: State) {
    && (forall id :: id in s.redeemers ==> id !in s.t.redemptions)
    && forall id :: id in s.redeemers && s.redeemers[id].phase.Validated? ==>
         var h := s.redeemers[id].hash;
         && h in s.licenceLocks && s.licenceLocks[h] == id
         && h in s.t.licences && !IsRedeemed(s.t.licences[h]) && s.t.licences[h].credits > 0
  }

  predicate Names(h: string, r: Redeemed) {
    r.licence == h
  }

  function TimesRedeemed(redemptions: map<string, Redeemed>, h: string): nat {
    Count(redemptions, (r: Redeemed) => Names(h, r))
  }

  /** A licence is marked redeemed exactly when one redemption row names it. */
  ghost predicate MarksOk(licences: map<string, Licence>, redemptions: map<string, Redeemed>) {
    && (forall h :: h in licences ==>
          TimesRedeemed(redemptions, h) == if IsRedeemed(licences[h]) then 1 else 0)
    && (forall h :: h in licences ==> licences[h].redeemedAt.Some? == licences[h].redeemedBy.Some?)
    && (forall id :: id in redemptions ==>
          var r := redemptions[id];
          && r.licence in licences && licences[r.licence].redeemedBy == Some(r.wallet)
          && licences[r.licence].service == r.service && licences[r.licence].credits == r.credits)
  }

  ghost function AddedTo(k: EntKey): (string, Redeemed) -> int {
    (id: string, r: Redeemed) => if r.wallet == k.wallet && r.service == k.service then r.credits else 0
  }

  function RemainingOn(ents: map<EntKey, Entitlement>, k: EntKey): int {
    if k in ents then ents[k].remaining else 0
  }

  /** What is left of an entitlement is what redemptions added to it, less what was spent. */
  ghost predicate BalancesOk(ents: map<EntKey, Entitlement>, spent: map<EntKey, int>,
                             redemptions: map<string, Redeemed>)
  {
    forall k :: RemainingOn(ents, k) == Total(redemptions, AddedTo(k)) - SpentOn(spent, k)
  }

  /** The licence was redeemed into this entitlement. */
  predicate IsInto(l: Licence, k: EntKey) {
    l.redeemedBy == Some(k.wallet) && l.service == k.service
  }

  /** `m` is the largest effective concurrency among the licences redeemed into the entitlement. */
  ghost predicate IsMaxFor(licences: map<string, Licence>, k: EntKey, m: int) {
    && (exists h :: h in licences && IsInto(licences[h], k) && EffectiveMax(licences[h].maxConcurrent) == m)
    && forall h :: h in licences && IsInto(licences[h], k) ==> EffectiveMax(licences[h].maxConcurrent) <= m
  }

  ghost predicate MaximaOk(ents: map<EntKey, Entitlement>, licences: map<string, Licence>) {
    && (forall k :: k in ents ==> IsMaxFor(licences, k, ents[k].maxConcurrent))
    && forall h, k :: h in licences && IsInto(licences[h], k) ==> k in ents
  }

  ghost predicate RowsOk(t: Tables, spent: map<EntKey, int>) {
    MarksOk(t.licences, t.redemptions) && BalancesOk(t.ents, spent, t.redemptions) && MaximaOk(t.ents, t.licences)
  }

  ghost predicate Sound(s: State) {
    LocksOk(s) && RowsOk(s.t, s.spent)
  }

  lemma CommitMarks(t: Tables, id: string, wallet: string, hash: string, now: int)
    requires MarksOk(t.licences, t.redemptions) && id !in t.redemptions
    requires hash in t.licences && !IsRedeemed(t.licences[hash])
    ensures var u := Redeem(t, id, wallet, hash, now); MarksOk(u.licences, u.redemptions)
  {
    var u := Redeem(t, id, wallet, hash, now);
    forall h | h in u.licences
      ensures TimesRedeemed(u.redemptions, h) == if IsRedeemed(u.licences[h]) then 1 else 0
    {
      CountSet(t.redemptions, (r: Redeemed) => Names(h, r), id, u.redemptions[id]);
    }
    forall other | other in t.redemptions ensures t.redemptions[other].licence != hash {
    }
  }

  lemma CommitBalances(t: Tables, spent: map<EntKey, int>, id: string, wallet: string, hash: string, now: int)
    requires BalancesOk(t.ents, spent, t.redemptions) && id !in t.redemptions && hash in t.licences
    ensures var u := Redeem(t, id, wallet, hash, now); BalancesOk(u.ents, spent, u.redemptions)
  {
    var u := Redeem(t, id, wallet, hash, now);
    forall k ensures RemainingOn(u.ents, k) == Total(u.redemptions, AddedTo(k)) - SpentOn(spent, k) {
      TotalSet(t.redemptions, AddedTo(k), id, u.redemptions[id]);
    }
  }

  lemma CommitMaxima(t: Tables, id: string, wallet: string, hash: string, now: int)
    requires MaximaOk(t.ents, t.licences) && hash in t.licences && !IsRedeemed(t.licences[hash])
    ensures var u := Redeem(t, id, wallet, hash, now); MaximaOk(u.ents, u.licences)
  {
    var u := Redeem(t, id, wallet, hash, now);
    var key := EntKey(wallet, t.licences[hash].service);
    var mine := EffectiveMax(t.licences[hash].maxConcurrent);
    forall k | k in u.ents ensures IsMaxFor(u.licences, k, u.ents[k].maxConcurrent) {
      if k in t.ents {
        var h :| h in t.licences && IsInto(t.licences[h], k)
            && EffectiveMax(t.licences[h].maxConcurrent) == t.ents[k].maxConcurrent;
        assert h != hash && u.licences[h] == t.licences[h];
        if k == key {
          assert IsInto(u.licences[hash], k);
        }
      } else {
        assert k == key && IsInto(u.licences[hash], k);
      }
    }
  }

  lemma CommitLocks(s: State, id: string)
    requires LocksOk(s) && Enabled(s, Commit(id))
    ensures LocksOk(DoCommit(s, id))
    ensures id !in s.t.redemptions && !IsRedeemed(s.t.licences[s.redeemers[id].hash])
    ensures s.t.licences[s.redeemers[id].hash].credits > 0
  {
  }

  lemma CommitRows(t: Tables, spent: map<EntKey, int>, id: string, wallet: string, hash: string, now: int)
    requires RowsOk(t, spent) && id !in t.redemptions && hash in t.licences && !IsRedeemed(t.licences[hash])
    ensures RowsOk(Redeem(t, id, wallet, hash, now), spent)
  {
    CommitMarks(t, id, wallet, hash, now);
    CommitBalances(t, spent, id, wallet, hash, now);
    CommitMaxima(t, id, wallet, hash, now);
  }

  lemma CommitIsSound(s: State, id: string)
    requires Sound(s) && Enabled(s, Commit(id))
    ensures Sound(DoCommit(s, id))
  {
    var r := s.redeemers[id];
    CommitLocks(s, id);
    CommitRows(s.t, s.spent, id, r.phase.wallet, r.hash, r.now);
  }

  lemma DropLocks(s: State, id: string)
    requires LocksOk(s) && id in s.redeemers
    ensures LocksOk(Drop(s, id)) && Drop(s, id).t == s.t && Drop(s, id).spent == s.spent
  {
  }

  lemma LicenceLockTaken(s: State, id: string)
    requires LocksOk(s) && Enabled(s, LockLicence(id))
    ensures LocksOk(DoLockLicence(s, id)) && DoLockLicence(s, id).t == s.t && DoLockLicence(s, id).spent == s.spent
  {
    DropLocks(s, id);
  }

  lemma RequestLocks(s: State, a: Action)
    requires LocksOk(s) && Enabled(s, a) && (a.Begin? || a.LockWallet? || a.LockLicence? || a.Abort?)
    ensures LocksOk(Apply(s, a)) && Apply(s, a).t == s.t && Apply(s, a).spent == s.spent
  {
    match a
    case Begin(_, _, _, _) =>
    case LockWallet(id) => DropLocks(s, id);
    case LockLicence(id) => LicenceLockTaken(s, id);
    case Abort(id) => DropLocks(s, id);
  }

  /** New licences are unredeemed; old ones keep everything but their status. */
  ghost predicate Extends(licences: map<string, Licence>, after: map<string, Licence>) {
    && (forall h :: h in licences ==> h in after && after[h].(active := licences[h].active) == licences[h])
    && (forall h :: h in after && h !in licences ==> !IsRedeemed(after[h]))
  }

  lemma ExtendsKeepsMax(licences: map<string, Licence>, after: map<string, Licence>, k: EntKey, m: int)
    requires IsMaxFor(licences, k, m) && Extends(licences, after)
    ensures IsMaxFor(after, k, m)
  {
    var h :| h in licences && IsInto(licences[h], k) && EffectiveMax(licences[h].maxConcurrent) == m;
    assert h in after && IsInto(after[h], k);
  }

  lemma ExtendsKeepsMaxima(ents: map<EntKey, Entitlement>, licences: map<string, Licence>, after: map<string, Licence>)
    requires MaximaOk(ents, licences) && Extends(licences, after)
    ensures MaximaOk(ents, after)
  {
    forall k | k in ents {
      ExtendsKeepsMax(licences, after, k, ents[k].maxConcurrent);
    }
  }

  lemma ExtendsKeepsMarks(licences: map<string, Licence>, after: map<string, Licence>,
                          redemptions: map<string, Redeemed>)
    requires MarksOk(licences, redemptions) && Extends(licences, after)
    ensures MarksOk(after, redemptions)
  {
    forall h | h in after && h !in licences ensures TimesRedeemed(redemptions, h) == 0 {
      assert Where(redemptions, (r: Redeemed) => Names(h, r)) == {};
    }
  }

  lemma LicenceLocks(s: State, a: Action)
    requires LocksOk(s) && Enabled(s, a) && (a.NewLicence? || a.DeleteLicence?)
    ensures LocksOk(Apply(s, a)) && Extends(s.t.licences, Apply(s, a).t.licences)
  {
  }

  lemma LicenceIsSound(s: State, a: Action)
    requires Sound(s) && Enabled(s, a) && (a.NewLicence? || a.DeleteLicence?)
    ensures Sound(Apply(s, a))
  {
    LicenceLocks(s, a);
    var licences := Apply(s, a).t.licences;
    ExtendsKeepsMarks(s.t.licences, licences, s.t.redemptions);
    ExtendsKeepsMaxima(s.t.ents, s.t.licences, licences);
  }

  lemma SpendBalances(ents: map<EntKey, Entitlement>, spent: map<EntKey, int>, redemptions: map<string, Redeemed>,
                      key: EntKey, amount: int)
    requires BalancesOk(ents, spent, redemptions) && key in ents
    ensures BalancesOk(Debited(ents, key, amount), WithSpent(spent, key, amount), redemptions)
  {
  }

  lemma SpendMaxima(ents: map<EntKey, Entitlement>, licences: map<string, Licence>, key: EntKey, amount: int)
    requires MaximaOk(ents, licences) && key in ents
    ensures MaximaOk(Debited(ents, key, amount), licences)
  {
  }

  lemma SpendRows(t: Tables, spent: map<EntKey, int>, key: EntKey, amount: int)
    requires RowsOk(t, spent) && key in t.ents
    ensures RowsOk(t.(ents := Debited(t.ents, key, amount)), WithSpent(spent, key, amount))
  {
    SpendBalances(t.ents, spent, t.redemptions, key, amount);
    SpendMaxima(t.ents, t.licences, key, amount);
  }

  lemma SpendLocks(s: State, key: EntKey, amount: int)
    requires LocksOk(s) && key in s.t.ents
    ensures LocksOk(DoSpend(s, key, amount))
  {
  }

  lemma SpendIsSound(s: State, key: EntKey, amount: int)
    requires Sound(s) && key in s.t.ents
    ensures Sound(DoSpend(s, key, amount))
  {
    SpendLocks(s, key, amount);
    SpendRows(s.t, s.spent, key, amount);
  }

  lemma StepIsSound(s: State, a: Action, u: State)
    requires Sound(s) && Enabled(s, a) && u == Apply(s, a)
    ensures Sound(u)
  {
    match a
    case NewWallet(_, _) =>
    case NewLicence(_, _) => LicenceIsSound(s, a);
    case DeleteLicence(_) => LicenceIsSound(s, a);
    case Spend(key, amount) => SpendIsSound(s, key, amount);
    case Begin(_, _, _, _) => RequestLocks(s, a);
    case LockWallet(_) => RequestLocks(s, a);
    case LockLicence(_) => RequestLocks(s, a);
    case Commit(id) => CommitIsSound(s, id);
    case Abort(_) => RequestLocks(s, a);
  }

  lemma InitialIsSound()
    ensures Sound(Initial())
  {
    var none: map<string, Redeemed> := map[];
    forall k ensures Total(none, AddedTo(k)) == 0 {
    }
  }

  lemma RunIsSound(states: seq<State>, actions: seq<Action>, i: nat)
    requires IsRun(states, actions) && i < |states|
    ensures Sound(states[i])
  {
    InitialIsSound();
    forall s, a, u | Sound(s) && Step(s, a, u) ensures Sound(u) {
      StepIsSound(s, a, u);
    }
    KeptAlong(Step, Sound, states, actions, i);
  }

  /** Over any interleaving of redeemers: a licence is named by one redemption row when it is marked
      redeemed and by none otherwise, so it is credited at most once. */
  lemma LicenceRedeemedOnce(states: seq<State>, actions: seq<Action>, i: nat, h: string)
    requires IsRun(states, actions) && i < |states| && h in states[i].t.licences
    ensures TimesRedeemed(states[i].t.redemptions, h) <= 1
    ensures IsRedeemed(states[i].t.licences[h]) <==> TimesRedeemed(states[i].t.redemptions, h) == 1
  {
    RunIsSound(states, actions, i);
  }

  /** What is left of an entitlement is the sum of the redemption rows of its wallet and service, less
      what was spent, and its concurrency is the largest among the licences redeemed into it. */
  lemma EntitlementFollowsRedemptions(states: seq<State>, actions: seq<Action>, i: nat, k: EntKey)
    requires IsRun(states, actions) && i < |states|
    ensures RemainingOn(states[i].t.ents, k)
         == Total(states[i].t.redemptions, AddedTo(k)) - SpentOn(states[i].spent, k)
    ensures k in states[i].t.ents ==> IsMaxFor(states[i].t.licences, k, states[i].t.ents[k].maxConcurrent)
    ensures (exists h :: h in states[i].t.licences && IsInto(states[i].t.licences[h], k)) ==> k in states[i].t.ents
  {
    RunIsSound(states, actions, i);
  }

  /** A commit adds its credit to the entitlement it names and to no other row. */
  lemma CommitAddsCredit(s: State, id: string)
    requires Sound(s) && Enabled(s, Commit(id))
    ensures var r := s.redeemers[id];
      var key := EntKey(r.phase.wallet, s.t.licences[r.hash].service);
      var before := if key in s.t.ents then s.t.ents[key].remaining else 0;
      var u := DoCommit(s, id).t;
      && key in u.ents && u.ents[key].remaining == before + s.t.licences[r.hash].credits
      && u.ents[key].remaining > before
      && forall k :: k != key ==> (k in u.ents <==> k in s.t.ents) && (k in s.t.ents ==> u.ents[k] == s.t.ents[k])
  {
  }
}

/** Which service pays for a generation and which provider buckets may serve it. */
module Routing {
  import opened Text
  import opened Rows

  const IMAGE_SD := "image-2-sd"
  const IMAGE_HD := "image-2-hd"
  const DEFAULT_SIZE := "1024x1824"

  /** stringParam: the printed form of a parameter, empty when absent. */
  function StringParam(params: map<string, string>, key: string): string {
    if key in params then params[key] else ""
  }

  function NormalTier(tier: string): string {
    ToUpper(TrimSpace(tier))
  }

  predicate IsHdTier(tier: string) {
    NormalTier(tier) == "2K" || NormalTier(tier) == "4K"
  }

  /** normalizeTaskSize */
  function NormalizeTaskSize(params: map<string, string>): (string, string) {
    var trimmed := TrimSpace(StringParam(params, "size"));
    var size := if trimmed == "" || trimmed == "auto" then DEFAULT_SIZE else trimmed;
    var tier := NormalTier(StringParam(params, "size_tier"));
    if tier == "1K" || tier == "2K" || tier == "4K" then (size, tier)
    else if size == DEFAULT_SIZE then (size, "1K")
    else (size, "")
  }

  /** The parameters stored with the task. */
  function WriteBack(params: map<string, string>): map<string, string> {
    var (size, tier) := NormalizeTaskSize(params);
    var written := params["size" := size]["output_format" := "png"]["output_compression" := "<nil>"];
    if tier != "" then written["size_tier" := tier] else written
  }

  lemma NormalTierOfNormal(tier: string)
    requires tier in {"", "1K", "2K", "4K"}
    ensures NormalTier(tier) == tier
  {
    TrimSpaceTrims(tier);
    assert ToUpper(tier) == tier;
  }

  /** A request without a size is of standard tier. */
  lemma DefaultTier()
    ensures NormalizeTaskSize(map[]).1 == "1K" && !IsHdTier("1K")
    ensures StringParam(WriteBack(map[]), "size_tier") == "1K"
  {
    NormalTierOfNormal("1K");
    NormalTierOfNormal("");
    TrimSpaceTrims("");
    assert StringParam(map[], "size") == "" && TrimSpace("") == "";
  }

  /** Normalising what was written back changes nothing: the worker reads the size and tier the
      request was priced with. */
  lemma NormalizeIsStable(params: map<string, string>)
    ensures NormalizeTaskSize(WriteBack(params)) == NormalizeTaskSize(params)
  {
    var (size, tier) := NormalizeTaskSize(params);
    TrimSpaceTrims(StringParam(params, "size"));
    TrimSpaceTrims(DEFAULT_SIZE);
    assert TrimSpace(size) == size && size != "" && size != "auto";
    NormalTierOfNormal(tier);
  }

  /** The tier a fallback reads from the stored parameters is HD exactly when the priced tier was. */
  lemma StoredTierAgrees(params: map<string, string>)
    ensures IsHdTier(StringParam(WriteBack(params), "size_tier")) <==> IsHdTier(NormalizeTaskSize(params).1)
  {
    NormalTierOfNormal(NormalizeTaskSize(params).1);
  }

  // ---- billing ----

  datatype SnapshotEntitlement = SnapshotEntitlement(service: string, remaining: int, maxConcurrent: int)
  datatype Snapshot = Snapshot(credits: int, ents: seq<SnapshotEntitlement>)
  datatype Price = Price(units: int, enabled: bool)
  datatype Billing = Billing(service: string, key: string, units: int, usesCredits: bool)

  /** walletEntitlementWithBalance: the first row of the service with something left. */
  function WithBalance(ents: seq<SnapshotEntitlement>, service: string): Option<SnapshotEntitlement> {
    if ents == [] then None
    else if ents[0].service == service && ents[0].remaining > 0 then
      Some(ents[0].(maxConcurrent := EffectiveMax(ents[0].maxConcurrent)))
    else WithBalance(ents[1..], service)
  }

  predicate HasBalance(ents: seq<SnapshotEntitlement>, service: string) {
    exists e :: e in ents && e.service == service && e.remaining > 0
  }

  lemma {:induction false} WithBalanceFinds(ents: seq<SnapshotEntitlement>, service: string)
    ensures WithBalance(ents, service).Some? <==> HasBalance(ents, service)
    ensures WithBalance(ents, service).Some? ==> WithBalance(ents, service).value.service == service
  {
    if ents != [] {
      WithBalanceFinds(ents[1..], service);
    }
  }

  /** selectWalletServiceForGeneration */
  function SelectWalletService(ents: seq<SnapshotEntitlement>, tier: string): Option<SnapshotEntitlement> {
    if IsHdTier(tier) then WithBalance(ents, IMAGE_HD)
    else
      var sd := WithBalance(ents, IMAGE_SD);
      if sd.Some? then sd else WithBalance(ents, IMAGE_HD)
  }

  function BillingKey(tier: string): string {
    if IsHdTier(tier) then "HD" else "1K"
  }

  /** creditServiceCandidatesForImageGeneration: always a single service. */
  function CreditService(tier: string): string {
    if IsHdTier(tier) then IMAGE_HD else IMAGE_SD
  }

  /** creditCost: the enabled price, at least one. */
  function CreditCost(prices: map<(string, string), Price>, service: string, key: string): Option<int> {
    if (service, key) in prices && prices[(service, key)].enabled
    then Some(MaxInt(1, prices[(service, key)].units)) else None
  }

  /** selectWalletBillingForGeneration */
  function SelectBilling(snapshot: Snapshot, tier: string, prices: map<(string, string), Price>): Option<Billing> {
    var ent := SelectWalletService(snapshot.ents, tier);
    if ent.Some? then Some(Billing(ent.value.service, BillingKey(tier), 1, false))
    else
      var cost := CreditCost(prices, CreditService(tier), BillingKey(tier));
      if cost.Some? && snapshot.credits >= cost.value
      then Some(Billing(CreditService(tier), BillingKey(tier), cost.value, true)) else None
  }

  /** candidateBucketsForService */
  function CandidateBuckets(service: string, tier: string): Option<seq<string>> {
    if IsHdTier(tier) then (if service != IMAGE_HD then None else Some(["hd"]))
    else Some(["1k", "hd"])
  }

  /** The first balance with something left pays: for a standard picture an entitlement of the
      standard service, else one of the HD service, for one unit; else the credits, at the enabled
      price of the tier's own service and key, raised to one, if they cover it. */
  lemma BillingChoice(snapshot: Snapshot, tier: string, prices: map<(string, string), Price>)
    ensures var b := SelectBilling(snapshot, tier, prices);
      var hd := ToUpper(TrimSpace(tier)) == "2K" || ToUpper(TrimSpace(tier)) == "4K";
      var row := if hd then ("image-2-hd", "HD") else ("image-2-sd", "1K");
      var bySd := !hd && exists e :: e in snapshot.ents && e.service == "image-2-sd" && e.remaining > 0;
      var byHd := exists e :: e in snapshot.ents && e.service == "image-2-hd" && e.remaining > 0;
      && (bySd ==> b == Some(Billing("image-2-sd", "1K", 1, false)))
      && (!bySd && byHd ==> b == Some(Billing("image-2-hd", row.1, 1, false)))
      && (!bySd && !byHd && b.Some? ==>
            && b.value.service == row.0 && b.value.key == row.1 && b.value.usesCredits
            && row in prices && prices[row].enabled
            && b.value.units == (if prices[row].units >= 1 then prices[row].units else 1)
            && b.value.units <= snapshot.credits)
      && (!bySd && !byHd && b.None? ==>
            row !in prices || !prices[row].enabled || snapshot.credits < prices[row].units || snapshot.credits < 1)
  {
    WithBalanceFinds(snapshot.ents, IMAGE_HD);
    WithBalanceFinds(snapshot.ents, IMAGE_SD);
  }

  /** What is stored with the task: the trimmed size or the default one, PNG without compression, and
      the tier in upper case if it is one of the three, or 1K for the default size. */
  lemma StoredRequest(params: map<string, string>)
    ensures var size := TrimSpace(if "size" in params then params["size"] else "");
      var tier := ToUpper(TrimSpace(if "size_tier" in params then params["size_tier"] else ""));
      var normal := NormalizeTaskSize(params);
      && normal.0 == (if size in {"", "auto"} then "1024x1824" else size)
      && (tier in {"1K", "2K", "4K"} ==> normal.1 == tier)
      && (tier !in {"1K", "2K", "4K"} ==> normal.1 == if size in {"", "auto", "1024x1824"} then "1K" else "")
      && WriteBack(params) == params["size" := normal.0]["output_format" := "png"]["output_compression" := "<nil>"]
           + if normal.1 == "" then map[] else map["size_tier" := normal.1]
  {
  }

  /** The routing function accepts whatever billing selects, and an HD tier is billed to the HD
      service and routed to the HD bucket only. */
  lemma BillingIsRoutable(snapshot: Snapshot, tier: string, prices: map<(string, string), Price>)
    requires SelectBilling(snapshot, tier, prices).Some?
    ensures var b := SelectBilling(snapshot, tier, prices).value;
      var hd := ToUpper(TrimSpace(tier)) == "2K" || ToUpper(TrimSpace(tier)) == "4K";
      && CandidateBuckets(b.service, tier) == Some(if hd then ["hd"] else ["1k", "hd"])
      && b.service in {"image-2-sd", "image-2-hd"} && (hd ==> b.service == "image-2-hd")
      && forall service :: CandidateBuckets(service, tier).None? <==> hd && service != "image-2-hd"
  {
    WithBalanceFinds(snapshot.ents, IMAGE_HD);
    WithBalanceFinds(snapshot.ents, IMAGE_SD);
  }

  /** The row a create request inserts. */
  function QueuedRow(w: string, b: Billing, params: map<string, string>, profile: string, now: int): Task {
    Task(w, b.service, if b.usesCredits then SOURCE_CREDITS else SOURCE_ENTITLEMENT, b.key, b.units,
         true, false, Queued, NormalizeTaskSize(params).0, WriteBack(params), profile, now, now)
  }

  /** Every row that billing leads to is for at least one unit, reserved and not charged. */
  lemma QueuedRowIsFresh(w: string, snapshot: Snapshot, prices: map<(string, string), Price>,
                         params: map<string, string>, profile: string, now: int)
    requires w != "" && SelectBilling(snapshot, NormalizeTaskSize(params).1, prices).Some?
    ensures var billing := SelectBilling(snapshot, NormalizeTaskSize(params).1, prices).value;
      IsFresh(QueuedRow(w, billing, params, profile, now))
  {
    BillingChoice(snapshot, NormalizeTaskSize(params).1, prices);
    BillingIsRoutable(snapshot, NormalizeTaskSize(params).1, prices);
  }
}

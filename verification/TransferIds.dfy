/** The strings hashed into deterministic ledger transfer identifiers. The truncated SHA-256 is
    taken to be injective, so the preimage itself stands for the identifier. */
module TransferIds {

  datatype Tier = Basic | Standard | Premium

  function TierName(tier: Tier): string {
    match tier
    case Basic => "basic"
    case Standard => "standard"
    case Premium => "premium"
  }

  /** Server-controlled price of an investigation, in kobo. */
  function TierAmount(tier: Tier): nat {
    match tier
    case Basic => 50_000
    case Standard => 150_000
    case Premium => 500_000
  }

  const TOPUP_PREFIX := "bis:paystack-topup:v2:"
  const ASSESSMENT_PREFIX := "bis:intelligence-assessment:v1:"
  const DEBIT_PREFIX := "bis:investigation-debit:v2:"

  // ---- Decimal numerals ----

  function Digit(d: nat): char
    requires d < 10
  {
    ['0', '1', '2', '3', '4', '5', '6', '7', '8', '9'][d]
  }

  function Decimal(n: nat): string {
    if n < 10 then [Digit(n)] else Decimal(n / 10) + [Digit(n % 10)]
  }

  predicate IsDigit(c: char) {
    '0' <= c <= '9'
  }

  /** The regular expression ^[1-9]\d*$ demanded of tenant identifiers. */
  predicate CanonicalTenant(s: string) {
    s != "" && '1' <= s[0] <= '9' && forall i :: 0 <= i < |s| ==> IsDigit(s[i])
  }

  /** A tenant identifier that passed that check. */
  type Tenant = s: string | CanonicalTenant(s) witness "1"

  lemma {:induction false} DecimalIsDigits(n: nat)
    ensures Decimal(n) != "" && forall i :: 0 <= i < |Decimal(n)| ==> IsDigit(Decimal(n)[i])
    ensures n > 0 ==> CanonicalTenant(Decimal(n))
  {
    if n >= 10 {
      DecimalIsDigits(n / 10);
    }
  }

  lemma {:induction false} DecimalInjective(m: nat, n: nat)
    requires Decimal(m) == Decimal(n)
    ensures m == n
    decreases m
  {
    DecimalIsDigits(m / 10);
    DecimalIsDigits(n / 10);
    if m >= 10 && n >= 10 {
      var a, b := Decimal(m), Decimal(n);
      assert a[..|a| - 1] == Decimal(m / 10) && b[..|b| - 1] == Decimal(n / 10);
      assert a[|a| - 1] == Digit(m % 10) && b[|b| - 1] == Digit(n % 10);
      DecimalInjective(m / 10, n / 10);
    }
  }

  // ---- Preimages ----

  function TopupPreimage(reference: string): string {
    TOPUP_PREFIX + reference
  }

  function AssessmentPreimage(event: string): string {
    ASSESSMENT_PREFIX + event
  }

  function DebitPreimage(tenant: string, investigation: string, tier: Tier, amount: nat): string {
    DEBIT_PREFIX + DebitTuple(tenant, investigation, tier, amount)
  }

  function DebitTuple(tenant: string, investigation: string, tier: Tier, amount: nat): string {
    tenant + ":" + investigation + ":" + TierName(tier) + ":" + Decimal(amount)
  }

  /** A family prefix can be stripped: equal identifiers within a family have equal arguments. */
  lemma PrefixStrip(prefix: string, a: string, b: string)
    requires prefix + a == prefix + b
    ensures a == b
  {
    assert a == (prefix + a)[|prefix|..];
    assert b == (prefix + b)[|prefix|..];
  }

  ghost predicate NoColon(s: string) {
    ':' !in s
  }

  /** Text up to the first colon is determined by the whole. */
  lemma FirstColonSplit(a: string, x: string, b: string, y: string)
    requires NoColon(a) && NoColon(b) && a + ":" + x == b + ":" + y
    ensures a == b && x == y
  {
    var s := a + ":" + x;
    assert s == b + ":" + y;
    assert s[|a|] == ':' && forall k :: 0 <= k < |a| ==> s[k] == a[k] != ':';
    assert s[|b|] == ':' && forall k :: 0 <= k < |b| ==> s[k] == b[k] != ':';
    assert a == s[..|a|] && b == s[..|b|];
    assert x == s[|a| + 1..] && y == s[|b| + 1..];
  }

  /** Text after the last colon is determined by the whole. */
  lemma LastColonSplit(x: string, a: string, y: string, b: string)
    requires NoColon(a) && NoColon(b) && x + ":" + a == y + ":" + b
    ensures a == b && x == y
  {
    var s := x + ":" + a;
    assert s == y + ":" + b;
    assert s[|x|] == ':' && forall k :: |x| < k < |s| ==> s[k] == a[k - |x| - 1] != ':';
    assert s[|y|] == ':' && forall k :: |y| < k < |s| ==> s[k] == b[k - |y| - 1] != ':';
    assert x == s[..|x|] && y == s[..|y|];
    assert a == s[|x| + 1..] && b == s[|y| + 1..];
  }

  lemma TierNamesDiffer(t: Tier, u: Tier)
    ensures NoColon(TierName(t))
    ensures TierName(t) == TierName(u) ==> t == u
  {
    assert TierName(t)[0] == TierName(u)[0] || TierName(t) != TierName(u);
  }

  lemma TierAndAmountInjective(x: string, t: Tier, a: nat, y: string, u: Tier, b: nat)
    requires x + ":" + TierName(t) + ":" + Decimal(a) == y + ":" + TierName(u) + ":" + Decimal(b)
    ensures x == y && t == u && a == b
  {
    DecimalIsDigits(a);
    DecimalIsDigits(b);
    LastColonSplit(x + ":" + TierName(t), Decimal(a), y + ":" + TierName(u), Decimal(b));
    DecimalInjective(a, b);
    TierNamesDiffer(t, u);
    TierNamesDiffer(u, t);
    LastColonSplit(x, TierName(t), y, TierName(u));
  }

  /** Distinct (tenant, investigation, tier, amount) tuples have distinct preimages although the
      investigation identifier is free text that may itself contain colons. */
  lemma DebitPreimageInjective(t1: string, i1: string, tier1: Tier, a1: nat,
                               t2: string, i2: string, tier2: Tier, a2: nat)
    requires CanonicalTenant(t1) && CanonicalTenant(t2)
    requires DebitPreimage(t1, i1, tier1, a1) == DebitPreimage(t2, i2, tier2, a2)
    ensures t1 == t2 && i1 == i2 && tier1 == tier2 && a1 == a2
  {
    PrefixStrip(DEBIT_PREFIX, DebitTuple(t1, i1, tier1, a1), DebitTuple(t2, i2, tier2, a2));
    var r1 := i1 + ":" + TierName(tier1) + ":" + Decimal(a1);
    var r2 := i2 + ":" + TierName(tier2) + ":" + Decimal(a2);
    DebitTupleHead(t1, i1, tier1, a1);
    DebitTupleHead(t2, i2, tier2, a2);
    FirstColonSplit(t1, r1, t2, r2);
    TierAndAmountInjective(i1, tier1, a1, i2, tier2, a2);
  }

  lemma DebitTupleHead(t: string, i: string, tier: Tier, a: nat)
    ensures DebitTuple(t, i, tier, a) == t + ":" + (i + ":" + TierName(tier) + ":" + Decimal(a))
  {
  }

  /** The canonical-tenant check is what makes the tuple unambiguous: without it two different
      (tenant, investigation) pairs share one preimage. */
  lemma DebitPreimageNeedsCanonicalTenant(tier: Tier, amount: nat)
    ensures DebitPreimage("1:2", "3", tier, amount) == DebitPreimage("1", "2:3", tier, amount)
    ensures CanonicalTenant("1") && !CanonicalTenant("1:2")
  {
    assert "1:2" + ":" + "3" == "1" + ":" + "2:3";
    assert "1:2"[1] == ':';
  }

  /** The three identifier families never meet, whatever their arguments. */
  lemma FamiliesDisjoint(reference: string, event: string, tuple: string)
    ensures TopupPreimage(reference) != AssessmentPreimage(event)
    ensures TopupPreimage(reference) != DEBIT_PREFIX + tuple
    ensures AssessmentPreimage(event) != DEBIT_PREFIX + tuple
  {
    assert TopupPreimage(reference)[4] == 'p';
    assert AssessmentPreimage(event)[4] == 'i' && AssessmentPreimage(event)[6] == 't';
    assert (DEBIT_PREFIX + tuple)[4] == 'i' && (DEBIT_PREFIX + tuple)[6] == 'v';
  }

  // ---- Keys ----

  /** What a transfer identifier is derived from. */
  datatype TransferKey =
    | TopupKey(reference: string)
    | DebitKey(tenant: Tenant, investigation: string, tier: Tier)
    | AssessmentKey(event: string)

  function Preimage(key: TransferKey): string {
    match key
    case TopupKey(reference) => TopupPreimage(reference)
    case DebitKey(tenant, investigation, tier) => DebitPreimage(tenant, investigation, tier, TierAmount(tier))
    case AssessmentKey(event) => AssessmentPreimage(event)
  }

  /** Two transfers get the same hashed identifier exactly when they have the same key, across all
      three families; the protocol model can therefore use keys as identifiers. */
  lemma IdentifiersAgree(a: TransferKey, b: TransferKey)
    ensures Preimage(a) == Preimage(b) <==> a == b
  {
    var topup := (k: TransferKey) => if k.TopupKey? then k.reference else "";
    var event := (k: TransferKey) => if k.AssessmentKey? then k.event else "";
    var tuple := (k: TransferKey) =>
        if k.DebitKey? then DebitTuple(k.tenant, k.investigation, k.tier, TierAmount(k.tier)) else "";
    FamiliesDisjoint(topup(a), event(b), tuple(b));
    FamiliesDisjoint(topup(b), event(a), tuple(a));
    FamiliesDisjoint("", event(a), tuple(b));
    FamiliesDisjoint("", event(b), tuple(a));
    if Preimage(a) == Preimage(b) {
      match (a, b) {
        case (TopupKey(x), TopupKey(y)) => PrefixStrip(TOPUP_PREFIX, x, y);
        case (DebitKey(t, i, d), DebitKey(u, j, e)) =>
          DebitPreimageInjective(t, i, d, TierAmount(d), u, j, e, TierAmount(e));
        case (AssessmentKey(x), AssessmentKey(y)) => PrefixStrip(ASSESSMENT_PREFIX, x, y);
        case _ =>
      }
    }
  }

  // ---- Accounts ----

  const ACCOUNT_REVENUE := "1"
  const ACCOUNT_TENANT_PREFIX := "10000"

  datatype Account = Revenue | TenantAccount(tenant: Tenant)

  function AccountName(account: Account): string {
    match account
    case Revenue => ACCOUNT_REVENUE
    case TenantAccount(tenant) => ACCOUNT_TENANT_PREFIX + tenant
  }

  /** No two accounts share a ledger account identifier. */
  lemma AccountNamesAgree(a: Account, b: Account)
    ensures AccountName(a) == AccountName(b) <==> a == b
  {
    if a.TenantAccount? && b.TenantAccount? && AccountName(a) == AccountName(b) {
      PrefixStrip(ACCOUNT_TENANT_PREFIX, a.tenant, b.tenant);
    }
    assert |AccountName(a)| == 1 <==> a.Revenue?;
    assert |AccountName(b)| == 1 <==> b.Revenue?;
  }
}

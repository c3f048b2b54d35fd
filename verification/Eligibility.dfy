/** Which pending purchases the verification job may settle: the user's and the merchant's flags decide. */
module Eligibility {
  import opened Wrappers
  import opened Flags

  /** A pending purchase as the dispatcher sees it. */
  datatype Candidate = Candidate(id: Uuid, userId: Uuid, merchantId: Uuid)

  const AUTO_CONFIRM := Key("purchase_auto_confirm")

  function UserScope(c: Candidate): Scope {
    Scope(User, Some(c.userId))
  }

  function MerchantScope(c: Candidate): Scope {
    Scope(Merchant, Some(c.merchantId))
  }

  /** A scope's own row decides; the query as written finds no other. */
  predicate ScopeEnabled(rows: seq<Flag>, scope: Scope) {
    Get(rows, AUTO_CONFIRM, scope).Some? ==> Get(rows, AUTO_CONFIRM, scope).value.enabled
  }

  predicate Eligible(rows: seq<Flag>, c: Candidate) {
    ScopeEnabled(rows, UserScope(c)) && ScopeEnabled(rows, MerchantScope(c))
  }

  /** The eligible candidates, in the order given. */
  function EligibleOf(rows: seq<Flag>, cs: seq<Candidate>): (es: seq<Candidate>)
    ensures |es| <= |cs|
    ensures forall c :: c in es <==> c in cs && Eligible(rows, c)
  {
    if cs == [] then []
    else
      var last := cs[|cs| - 1];
      assert cs == cs[..|cs| - 1] + [last];
      EligibleOf(rows, cs[..|cs| - 1]) + if Eligible(rows, last) then [last] else []
  }

  /** A row of the user's own or of the merchant's own switches automatic confirmation off. */
  ghost predicate SwitchedOff(rows: seq<Flag>, userId: Uuid, merchantId: Uuid) {
    exists f :: f in rows && f.key == Key("purchase_auto_confirm") && !f.enabled
             && (f.scope == Scope(User, Some(userId)) || f.scope == Scope(Merchant, Some(merchantId)))
  }

  lemma EligibleUnlessSwitchedOff(rows: seq<Flag>, c: Candidate)
    requires Unique(rows)
    ensures Eligible(rows, c) <==> !SwitchedOff(rows, c.userId, c.merchantId)
  {
    GetIsTheRow(rows, AUTO_CONFIRM, UserScope(c));
    GetIsTheRow(rows, AUTO_CONFIRM, MerchantScope(c));
  }

  // ----- order

  /** `kept` are the candidates at the positions `at`, which increase. */
  ghost predicate Picks(cs: seq<Candidate>, kept: seq<Candidate>, at: seq<nat>) {
    && |at| == |kept| && (forall k :: 0 <= k < |at| ==> at[k] < |cs| && kept[k] == cs[at[k]])
    && (forall k, l :: 0 <= k < l < |at| ==> at[k] < at[l])
  }

  /** What is picked from a list is also picked when the list grows; its last element is picked last. */
  lemma PicksMore(cs: seq<Candidate>, kept: seq<Candidate>, at: seq<nat>)
    requires cs != [] && Picks(cs[..|cs| - 1], kept, at)
    ensures Picks(cs, kept, at) && Picks(cs, kept + [cs[|cs| - 1]], at + [|cs| - 1])
  {
  }

  /** `at` are exactly the positions of the candidates that are not switched off. */
  ghost predicate AtOn(rows: seq<Flag>, cs: seq<Candidate>, at: seq<nat>) {
    forall i :: 0 <= i < |cs| ==> (i in at <==> !SwitchedOff(rows, cs[i].userId, cs[i].merchantId))
  }

  lemma AtOnMore(rows: seq<Flag>, cs: seq<Candidate>, at: seq<nat>)
    requires cs != [] && AtOn(rows, cs[..|cs| - 1], at) && forall k :: 0 <= k < |at| ==> at[k] < |cs| - 1
    ensures var last := cs[|cs| - 1];
            AtOn(rows, cs, if SwitchedOff(rows, last.userId, last.merchantId) then at else at + [|cs| - 1])
  {
    var last := |cs| - 1;
    assert last !in at;
    forall i | 0 <= i < last
      ensures i in at <==> !SwitchedOff(rows, cs[i].userId, cs[i].merchantId)
    {
      assert cs[..last][i] == cs[i];
    }
  }

  /** The eligible candidates are those at the positions of purchases that are not switched off, in order. */
  lemma {:induction false} EligibleInOrder(rows: seq<Flag>, cs: seq<Candidate>) returns (at: seq<nat>)
    requires Unique(rows)
    ensures Picks(cs, EligibleOf(rows, cs), at) && AtOn(rows, cs, at)
  {
    if cs == [] {
      at := [];
    } else {
      var last := |cs| - 1;
      at := EligibleInOrder(rows, cs[..last]);
      PicksMore(cs, EligibleOf(rows, cs[..last]), at);
      AtOnMore(rows, cs, at);
      EligibleUnlessSwitchedOff(rows, cs[last]);
      if Eligible(rows, cs[last]) {
        at := at + [last];
      }
    }
  }

  // ----- the filter

  /** The elements of a set, in some order. */
  method ListOf(specs: set<Scope>) returns (scopes: seq<Scope>)
    ensures forall sc :: sc in scopes <==> sc in specs
  {
    scopes := [];
    var rest := specs;
    while rest != {}
      invariant rest <= specs
      invariant forall sc :: sc in scopes <==> sc in specs && sc !in rest
      decreases rest
    {
      var sc :| sc in rest;
      scopes := scopes + [sc];
      rest := rest - {sc};
    }
  }

  /** One batch evaluation of every scope the purchases mention; each lookup key is present afterwards. */
  method EvaluateAll(rows: seq<Flag>, purchases: seq<Candidate>) returns (results: map<Scope, bool>)
    requires Unique(rows)
    ensures forall i :: 0 <= i < |purchases| ==>
      UserScope(purchases[i]) in results && MerchantScope(purchases[i]) in results
    ensures forall sc :: sc in results ==> results[sc] == ScopeEnabled(rows, sc)
  {
    var specs: set<Scope> := {};
    for i := 0 to |purchases|
      invariant forall j :: 0 <= j < i ==> UserScope(purchases[j]) in specs && MerchantScope(purchases[j]) in specs
      invariant forall sc :: sc in specs ==> Specific(sc)
    {
      specs := specs + {UserScope(purchases[i])};
      specs := specs + {MerchantScope(purchases[i])};
    }
    var scopes := ListOf(specs);
    results := EvaluateScopes(rows, AUTO_CONFIRM, scopes);
    forall sc | sc in results
      ensures results[sc] == ScopeEnabled(rows, sc)
    {
      BatchResolves(rows, AUTO_CONFIRM, scopes, false, sc);
    }
  }

  method FilterEligiblePurchases(rows: seq<Flag>, purchases: seq<Candidate>)
    returns (eligible: seq<Candidate>, ineligible: nat)
    requires Unique(rows)
    ensures eligible == EligibleOf(rows, purchases)
    ensures forall c :: c in eligible <==> c in purchases && !SwitchedOff(rows, c.userId, c.merchantId)
    ensures |eligible| + ineligible == |purchases|
  {
    forall c
      ensures c in EligibleOf(rows, purchases) <==> c in purchases && !SwitchedOff(rows, c.userId, c.merchantId)
    {
      EligibleUnlessSwitchedOff(rows, c);
    }
    if purchases == [] {
      return [], 0;
    }
    var results := EvaluateAll(rows, purchases);
    eligible, ineligible := [], 0;
    for i := 0 to |purchases|
      invariant eligible == EligibleOf(rows, purchases[..i])
      invariant |eligible| + ineligible == i
    {
      assert purchases[..i + 1][..i] == purchases[..i];
      var userEnabled := results[UserScope(purchases[i])];
      var merchantEnabled := results[MerchantScope(purchases[i])];
      if userEnabled && merchantEnabled {
        eligible := eligible + [purchases[i]];
      } else {
        ineligible := ineligible + 1;
      }
    }
    assert purchases[..|purchases|] == purchases;
  }

  /** Single lookups, which fall back to the global row, would leave the purchase alone. */
  predicate DisabledByLookups(rows: seq<Flag>, c: Candidate) {
    !IsEnabled(rows, AUTO_CONFIRM, UserScope(c)) || !IsEnabled(rows, AUTO_CONFIRM, MerchantScope(c))
  }

  /**
   * An eligible purchase is one that single lookups would leave alone exactly when the global row is
   * disabled and the user or the merchant has no row of its own.
   */
  lemma EligibleDespiteLookupsIff(rows: seq<Flag>, c: Candidate)
    requires Unique(rows) && Eligible(rows, c)
    ensures DisabledByLookups(rows, c)
       <==> && Get(rows, AUTO_CONFIRM, EVERYWHERE).Some? && !Get(rows, AUTO_CONFIRM, EVERYWHERE).value.enabled
            && (Get(rows, AUTO_CONFIRM, UserScope(c)).None? || Get(rows, AUTO_CONFIRM, MerchantScope(c)).None?)
  {
    var scopes := [UserScope(c), MerchantScope(c)];
    assert scopes[0] == UserScope(c) && scopes[1] == MerchantScope(c);
    BatchResolves(rows, AUTO_CONFIRM, scopes, false, UserScope(c));
    BatchResolves(rows, AUTO_CONFIRM, scopes, false, MerchantScope(c));
  }
}

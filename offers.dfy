/** What the upgrade list tracks for each definition once the game is running: its current
    cost, how often it has completed and whether it is still listed. Described by the field
    comments of the Upgrade class in assets/js/upgradeList.js:12-16; the shop code that acts
    on them is not part of this model. */
module Offers {
  import opened World
  import opened UpgradeList

  /** The live state of one entry of the upgrade list: its current cost, how many times it
      has completed, and whether it has disappeared. */
  datatype Offer = Offer(cost: map<Resource, real>, completions: nat, gone: bool)

  /** An entry as it stands before its first completion. */
  function Fresh(u: Upgrade): (o: Offer)
    ensures o.cost.Keys == u.cost.Keys && forall r :: r in u.cost ==> o.cost[r] == u.cost[r] as real
    ensures o.completions == 0 && !o.gone
  {
    Offer(map r | r in u.cost :: u.cost[r] as real, 0, false)
  }

  /** An amount multiplied by a scaling factor. */
  function Scaled(amount: real, factor: real): real
  {
    amount * factor
  }

  lemma ScaledAssoc(a: real, b: real, f: real)
    ensures Scaled(Scaled(a, b), f) == Scaled(a, Scaled(b, f))
  {
    assert (a * b) * f == a * (b * f);
  }

  /** Multiplying a non-negative amount by a factor of at least one does not shrink it. */
  lemma ScaleUp(a: real, f: real)
    requires a >= 0.0 && f >= 1.0
    ensures Scaled(a, f) >= a
  {
    assert a * f - a == a * (f - 1.0);
  }

  /** `x` to the power `n`. */
  function Pow(x: real, n: nat): real
  {
    if n == 0 then 1.0 else Scaled(Pow(x, n - 1), x)
  }

  lemma {:induction false} PowAtLeastOne(x: real, n: nat)
    requires x >= 1.0
    ensures Pow(x, n) >= 1.0
  {
    if n > 0 {
      PowAtLeastOne(x, n - 1);
      ScaleUp(Pow(x, n - 1), x);
    }
  }

  /** One completion: a one-shot disappears; a repeatable one stays, and every amount of its
      cost is multiplied by its scaling. */
  function Completed(u: Upgrade, o: Offer): (next: Offer)
    requires u.once || u.scaling.Some?
    ensures next.cost.Keys == o.cost.Keys && next.completions == o.completions + 1
    ensures next.gone <==> o.gone || u.once
    ensures u.once ==> next.cost == o.cost
    ensures !u.once ==> forall k :: k in o.cost ==> next.cost[k] == Scaled(o.cost[k], u.scaling.value)
  {
    if u.once then o.(completions := o.completions + 1, gone := true)
    else o.(cost := map k | k in o.cost :: Scaled(o.cost[k], u.scaling.value), completions := o.completions + 1)
  }

  /** An entry after `n` completions. */
  function AfterCompletions(u: Upgrade, n: nat): (o: Offer)
    requires u.once || u.scaling.Some?
    ensures o.cost.Keys == u.cost.Keys && o.completions == n
    ensures o.gone <==> u.once && n > 0
  {
    if n == 0 then Fresh(u) else Completed(u, AfterCompletions(u, n - 1))
  }

  /** One more completion multiplies a repeatable upgrade's cost amount by its scaling. */
  lemma CompletionStep(u: Upgrade, n: nat, r: Resource)
    requires !u.once && u.scaling.Some? && r in u.cost
    ensures AfterCompletions(u, n + 1).cost[r] == Scaled(AfterCompletions(u, n).cost[r], u.scaling.value)
  {
    var prev := AfterCompletions(u, n);
    assert AfterCompletions(u, n + 1) == Completed(u, prev);
    assert r in prev.cost;
  }

  /** A repeatable upgrade never disappears, and after `n` completions each cost amount is
      its base amount times scaling^n. */
  lemma {:induction false} RepeatableCost(u: Upgrade, n: nat, r: Resource)
    requires !u.once && u.scaling.Some? && r in u.cost
    ensures !AfterCompletions(u, n).gone
    ensures AfterCompletions(u, n).cost[r] == Scaled(u.cost[r] as real, Pow(u.scaling.value, n))
  {
    var x, c := u.scaling.value, u.cost[r] as real;
    if n == 0 {
      assert Scaled(c, 1.0) == c;
    } else {
      RepeatableCost(u, n - 1, r);
      CompletionStep(u, n - 1, r);
      ScaledAssoc(c, Pow(x, n - 1), x);
    }
  }

  /** For a definition obeying the schema, no cost amount ever falls from one completion to
      the next. */
  lemma CostNeverFalls(u: Upgrade, n: nat, r: Resource)
    requires WellFormed(u) && !u.once && r in u.cost
    ensures AfterCompletions(u, n).cost[r] <= AfterCompletions(u, n + 1).cost[r]
  {
    var x, c := u.scaling.value, u.cost[r] as real;
    RepeatableCost(u, n, r);
    PowAtLeastOne(x, n);
    ScaleUp(c, Pow(x, n));
    CompletionStep(u, n, r);
    ScaleUp(AfterCompletions(u, n).cost[r], x);
  }

  /** An entry is offered when it has not disappeared and its requirement is met. */
  predicate OnOffer(u: Upgrade, o: Offer, levels: Levels)
  {
    !o.gone && Visible(u, levels)
  }

  /** A one-shot upgrade is never offered again once bought, whatever the levels. */
  lemma OnceGoneForGood(u: Upgrade, o: Offer, levels: Levels)
    requires u.once
    ensures Completed(u, o).gone
    ensures !OnOffer(u, Completed(u, o), levels)
  {
  }

  /** The indices of `list` on offer, in list order, from index `i` on. */
  function OfferedFrom(list: seq<Upgrade>, offers: seq<Offer>, levels: Levels, i: nat): seq<nat>
    requires |offers| == |list| && i <= |list|
    decreases |list| - i
  {
    if i == |list| then []
    else (if OnOffer(list[i], offers[i], levels) then [i] else []) + OfferedFrom(list, offers, levels, i + 1)
  }

  /** What the upgrade list shows: exactly the entries on offer, each once, in list order. */
  lemma {:induction false} OfferedExactly(list: seq<Upgrade>, offers: seq<Offer>, levels: Levels, i: nat)
    requires |offers| == |list| && i <= |list|
    ensures forall j :: j in OfferedFrom(list, offers, levels, i) <==> i <= j < |list| && OnOffer(list[j], offers[j], levels)
    ensures forall a, b :: 0 <= a < b < |OfferedFrom(list, offers, levels, i)| ==>
      OfferedFrom(list, offers, levels, i)[a] < OfferedFrom(list, offers, levels, i)[b]
    decreases |list| - i
  {
    if i < |list| {
      OfferedExactly(list, offers, levels, i + 1);
      var rest := OfferedFrom(list, offers, levels, i + 1);
      forall b | 0 <= b < |rest| ensures rest[b] > i {
        assert rest[b] in rest;
      }
    }
  }
}

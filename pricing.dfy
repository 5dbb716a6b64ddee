/** The pricing service: catalog lookup, the rate configuration it owns, quote calculation and saving a quote. */
module Pricing {
  import opened Wrappers
  import opened Money
  import opened Rates
  import opened Records
  import opened Seqs

  /** A static catalog entry (the flat reference price shown in the home-size picker). */
  datatype PricingOption = PricingOption(homeSize: string, icon: string, basePrice: real)

  /** The itemised breakdown calculateQuote returns. */
  datatype Quote = Quote(
    homeSize: string,
    frequency: string,
    basePrice: real,
    extraCharges: real,
    subtotal: real,
    discount: real,
    minimumApplied: bool,
    travelFee: real,
    totalPrice: real)

  /** `find(p => p.homeSize === homeSize)` on the catalog: the first matching position, or None. */
  function FirstWithSize(catalog: seq<PricingOption>, homeSize: string): (r: Option<nat>)
    ensures r.None? <==> forall i :: 0 <= i < |catalog| ==> catalog[i].homeSize != homeSize
    ensures r.Some? ==> r.value < |catalog| && catalog[r.value].homeSize == homeSize
    ensures r.Some? ==> forall i :: 0 <= i < r.value ==> catalog[i].homeSize != homeSize
  {
    FirstIndex(catalog, (p: PricingOption) => p.homeSize == homeSize)
  }

  // ---------------------------------------------------------------------------
  // The calculation pipeline, stage by stage
  // ---------------------------------------------------------------------------

  /** `timeEstimates[homeSize] || 3`: a missing entry and a configured 0 are both falsy. */
  function TimeEstimate(c: RateConfig, homeSize: string): (r: real)
    ensures r != 0.0
    ensures r == 3.0 || (homeSize in c.timeEstimates && r == c.timeEstimates[homeSize])
  {
    if homeSize in c.timeEstimates && c.timeEstimates[homeSize] != 0.0 then c.timeEstimates[homeSize] else 3.0
  }

  /** What one `[key, selected]` entry of the extras object adds: its amount only if selected and enabled. */
  function ExtraAmount(c: RateConfig, entry: (string, bool)): real {
    if entry.1 && entry.0 in c.extraCharges && c.extraCharges[entry.0].enabled
    then c.extraCharges[entry.0].amount
    else 0.0
  }

  /** The `extraTotal +=` accumulation over the entries, in order. */
  function ExtraTotal(c: RateConfig, extras: seq<(string, bool)>): real {
    if extras == [] then 0.0
    else ExtraTotal(c, extras[..|extras| - 1]) + ExtraAmount(c, extras[|extras| - 1])
  }

  function Subtotal(c: RateConfig, homeSize: string, extras: seq<(string, bool)>): real {
    c.hourlyRate * TimeEstimate(c, homeSize) + ExtraTotal(c, extras)
  }

  /** `frequencyDiscounts[frequency] || 0`. */
  function DiscountFor(c: RateConfig, frequency: string): real {
    if frequency in c.frequencyDiscounts && c.frequencyDiscounts[frequency] != 0.0 then c.frequencyDiscounts[frequency] else 0.0
  }

  /** The percentage discount applied to the whole subtotal. */
  function Discounted(subtotal: real, discount: real): real {
    subtotal * ((100.0 - discount) / 100.0)
  }

  /** The minimum-charge floor. */
  function WithMinimum(c: RateConfig, x: real): (r: real)
    ensures r >= c.minimumCharge
    ensures x >= c.minimumCharge ==> r == x
    ensures r == x || r == c.minimumCharge
  {
    if x < c.minimumCharge then c.minimumCharge else x
  }

  /** The flat fee added after the floor: its amount when enabled, otherwise nothing. */
  function TravelFeeCharged(c: RateConfig): real {
    if c.travelFee.enabled then c.travelFee.amount else 0.0
  }

  /** The final total before the output rounding. */
  function UnroundedTotal(c: RateConfig, homeSize: string, frequency: string, extras: seq<(string, bool)>): (r: real)
    ensures r >= c.minimumCharge + TravelFeeCharged(c)
  {
    WithMinimum(c, Discounted(Subtotal(c, homeSize, extras), DiscountFor(c, frequency))) + TravelFeeCharged(c)
  }

  /** calculateQuote as a function of the configuration and the inputs. */
  function QuoteFor(c: RateConfig, homeSize: string, frequency: string, extras: seq<(string, bool)>): Quote {
    var subtotal := Subtotal(c, homeSize, extras);
    var total := UnroundedTotal(c, homeSize, frequency, extras);
    Quote(
      homeSize, frequency,
      c.hourlyRate * TimeEstimate(c, homeSize),
      ExtraTotal(c, extras),
      subtotal,
      DiscountFor(c, frequency),
      total == c.minimumCharge && subtotal < c.minimumCharge,
      TravelFeeCharged(c),
      Round2(total))
  }

  // ---------------------------------------------------------------------------
  // Id assignment for saved quotes
  // ---------------------------------------------------------------------------

  /** `Math.max(...ids, 0)`. */
  function MaxId(s: seq<SavedQuote>): (r: int)
    ensures r >= 0
    ensures forall i :: 0 <= i < |s| ==> s[i].id <= r
    ensures r == 0 || exists i :: 0 <= i < |s| && s[i].id == r
  {
    if s == [] then 0
    else
      var m := MaxId(s[..|s| - 1]);
      var last := s[|s| - 1].id;
      assert forall i :: 0 <= i < |s| - 1 ==> s[i] == s[..|s| - 1][i];
      if last > m then last else m
  }

  /** The Id saveQuote gives the next record. */
  function NextId(s: seq<SavedQuote>): (r: int)
    ensures r >= 1
    ensures forall i :: 0 <= i < |s| ==> s[i].id < r
  {
    MaxId(s) + 1
  }

  /** Ids 1, 2, ..., n in position order. */
  predicate NumberedFromOne(s: seq<SavedQuote>) {
    forall i :: 0 <= i < |s| ==> s[i].id == i + 1
  }

  /** On a history numbered 1..n the next Id is n + 1, so repeated saves from empty number 1, 2, 3, ... without gaps. */
  lemma NextIdAfterNumbered(s: seq<SavedQuote>, saved: SavedQuote)
    requires NumberedFromOne(s)
    requires saved.id == NextId(s)
    ensures saved.id == |s| + 1
    ensures NumberedFromOne(s + [saved])
  {
  }

  // ---------------------------------------------------------------------------
  // Properties of the pipeline
  // ---------------------------------------------------------------------------

  /** A home size with no estimate, or an estimate of 0, is priced as 3 hours; any other estimate is used as is. */
  lemma BasePriceRule(c: RateConfig, homeSize: string, frequency: string, extras: seq<(string, bool)>)
    ensures homeSize !in c.timeEstimates || c.timeEstimates[homeSize] == 0.0 ==>
      QuoteFor(c, homeSize, frequency, extras).basePrice == c.hourlyRate * 3.0
    ensures homeSize in c.timeEstimates && c.timeEstimates[homeSize] != 0.0 ==>
      QuoteFor(c, homeSize, frequency, extras).basePrice == c.hourlyRate * c.timeEstimates[homeSize]
  {
  }

  /** With non-negative configured amounts the extras never lower the price, and with nothing selected they add nothing. */
  lemma {:induction false} ExtraTotalBounds(c: RateConfig, extras: seq<(string, bool)>)
    ensures (forall k :: k in c.extraCharges ==> c.extraCharges[k].amount >= 0.0) ==> ExtraTotal(c, extras) >= 0.0
    ensures (forall i :: 0 <= i < |extras| ==> !extras[i].1) ==> ExtraTotal(c, extras) == 0.0
  {
    if extras != [] {
      var front := extras[..|extras| - 1];
      assert forall i :: 0 <= i < |front| ==> front[i] == extras[i];
      ExtraTotalBounds(c, front);
    }
  }

  /** A discount of 0 leaves the subtotal as it is; a discount in [0, 100] never raises a non-negative subtotal or makes it negative. */
  lemma DiscountBounds(subtotal: real, discount: real)
    ensures discount == 0.0 ==> Discounted(subtotal, discount) == subtotal
    ensures 0.0 <= discount <= 100.0 && subtotal >= 0.0 ==> 0.0 <= Discounted(subtotal, discount) <= subtotal
  {
    var f := (100.0 - discount) / 100.0;
    if 0.0 <= discount <= 100.0 && subtotal >= 0.0 {
      assert 0.0 <= f <= 1.0;
      assert subtotal * f <= subtotal * 1.0;
      assert 0.0 <= subtotal * f;
    }
  }

  /** Extra totals split over concatenation of the entries. */
  lemma {:induction false} ExtraTotalAppend(c: RateConfig, a: seq<(string, bool)>, b: seq<(string, bool)>)
    ensures ExtraTotal(c, a + b) == ExtraTotal(c, a) + ExtraTotal(c, b)
  {
    if b == [] {
      assert a + b == a;
    } else {
      assert (a + b)[..|a + b| - 1] == a + b[..|b| - 1];
      ExtraTotalAppend(c, a, b[..|b| - 1]);
    }
  }

  /** An entry that is not selected, names no configured extra, or names a disabled one adds nothing, wherever it stands. */
  lemma IgnoredExtra(c: RateConfig, before: seq<(string, bool)>, key: string, selected: bool, after: seq<(string, bool)>)
    requires !selected || key !in c.extraCharges || !c.extraCharges[key].enabled
    ensures ExtraTotal(c, before + [(key, selected)] + after) == ExtraTotal(c, before + after)
  {
    ExtraTotalAppend(c, before + [(key, selected)], after);
    ExtraTotalAppend(c, before, [(key, selected)]);
    ExtraTotalAppend(c, before, after);
    assert [(key, selected)][..0] == [];
  }

  /** The order of the extras object's entries does not matter. */
  lemma {:induction false} ExtraTotalPermutation(c: RateConfig, a: seq<(string, bool)>, b: seq<(string, bool)>)
    requires multiset(a) == multiset(b)
    ensures ExtraTotal(c, a) == ExtraTotal(c, b)
    decreases |a|
  {
    if a == [] {
      assert |b| == |multiset(b)| == 0;
    } else {
      var x := a[|a| - 1];
      var front := a[..|a| - 1];
      assert a == front + [x];
      assert x in multiset(b);
      var j :| 0 <= j < |b| && b[j] == x;
      var rest := b[..j] + b[j + 1..];
      assert b == b[..j] + [x] + b[j + 1..];
      assert multiset(b) == multiset(b[..j]) + multiset([x]) + multiset(b[j + 1..]);
      assert multiset(rest) == multiset(b[..j]) + multiset(b[j + 1..]);
      assert multiset(a) == multiset(front) + multiset([x]);
      assert multiset(front) == multiset(a) - multiset([x]);
      assert multiset(rest) == multiset(b) - multiset([x]);
      ExtraTotalPermutation(c, front, rest);
      IgnoredOrNot(c, b[..j], x, b[j + 1..]);
      assert ExtraTotal(c, a) == ExtraTotal(c, front) + ExtraAmount(c, x);
    }
  }

  /** Taking one entry out of the middle subtracts exactly what it added. */
  lemma IgnoredOrNot(c: RateConfig, before: seq<(string, bool)>, e: (string, bool), after: seq<(string, bool)>)
    ensures ExtraTotal(c, before + [e] + after) == ExtraTotal(c, before + after) + ExtraAmount(c, e)
  {
    ExtraTotalAppend(c, before + [e], after);
    ExtraTotalAppend(c, before, [e]);
    ExtraTotalAppend(c, before, after);
    assert [e][..0] == [];
  }

  /** The fixed order: subtotal, then the percentage discount of the whole subtotal, then the floor, then the travel fee, then rounding of the total alone. */
  lemma PipelineOrder(c: RateConfig, homeSize: string, frequency: string, extras: seq<(string, bool)>)
    ensures var q := QuoteFor(c, homeSize, frequency, extras);
      && q.subtotal == q.basePrice + q.extraCharges
      && UnroundedTotal(c, homeSize, frequency, extras)
           == WithMinimum(c, q.subtotal * ((100.0 - q.discount) / 100.0)) + q.travelFee
      && q.totalPrice == Round2(UnroundedTotal(c, homeSize, frequency, extras))
      && (frequency !in c.frequencyDiscounts ==> q.discount == 0.0)
      && (c.travelFee.enabled ==> q.travelFee == c.travelFee.amount)
      && (!c.travelFee.enabled ==> q.travelFee == 0.0)
  {
  }

  /** minimumApplied compares the final total (after the fee) with the minimum, and the subtotal (before the discount) with the minimum. */
  lemma MinimumAppliedRule(c: RateConfig, homeSize: string, frequency: string, extras: seq<(string, bool)>)
    ensures var q := QuoteFor(c, homeSize, frequency, extras);
      q.minimumApplied <==> UnroundedTotal(c, homeSize, frequency, extras) == c.minimumCharge && q.subtotal < c.minimumCharge
    ensures c.travelFee.enabled && c.travelFee.amount > 0.0 ==> !QuoteFor(c, homeSize, frequency, extras).minimumApplied
  {
  }

  /** With no travel fee, discounts in [0, 100] and a non-negative minimum, the flag is exactly "subtotal below the minimum". */
  lemma MinimumAppliedWithoutTravelFee(c: RateConfig, homeSize: string, frequency: string, extras: seq<(string, bool)>)
    requires !c.travelFee.enabled
    requires 0.0 <= DiscountFor(c, frequency) <= 100.0
    requires c.minimumCharge >= 0.0
    ensures var q := QuoteFor(c, homeSize, frequency, extras);
      q.minimumApplied <==> q.subtotal < c.minimumCharge
  {
    var s := Subtotal(c, homeSize, extras);
    var f := (100.0 - DiscountFor(c, frequency)) / 100.0;
    assert 0.0 <= f <= 1.0;
    if s < c.minimumCharge {
      if s >= 0.0 {
        assert s * f <= s * 1.0;
      } else {
        assert s * f <= 0.0;
      }
      assert Discounted(s, DiscountFor(c, frequency)) <= c.minimumCharge;
    }
  }

  /** The floor can raise a price without the flag being set: with the default rates a Weekly Studio clean is 42.50 after discount, is floored to 50, and reports minimumApplied false. */
  lemma FloorWithoutFlag()
    ensures Discounted(Subtotal(DefaultConfig(), "Studio", []), DiscountFor(DefaultConfig(), "Weekly")) == 42.5
    ensures QuoteFor(DefaultConfig(), "Studio", "Weekly", []).totalPrice == 50.0
    ensures !QuoteFor(DefaultConfig(), "Studio", "Weekly", []).minimumApplied
  {
    Round2Exact(50.0);
  }

  /** With a minimum in whole cents and a non-negative travel fee, the rounded total is never below the minimum. */
  lemma TotalAtLeastMinimum(c: RateConfig, homeSize: string, frequency: string, extras: seq<(string, bool)>)
    requires TwoDecimals(c.minimumCharge)
    requires TravelFeeCharged(c) >= 0.0
    ensures QuoteFor(c, homeSize, frequency, extras).totalPrice >= c.minimumCharge
  {
    Round2Monotone(c.minimumCharge, UnroundedTotal(c, homeSize, frequency, extras));
    Round2Exact(c.minimumCharge);
  }

  /** The worked example: a Bi-weekly 2 Bedroom clean with pets at the default rates. */
  lemma DefaultExampleQuote()
    ensures QuoteFor(DefaultConfig(), "2 Bedroom", "Bi-weekly", [("pets", true)])
      == Quote("2 Bedroom", "Bi-weekly", 87.5, 15.0, 102.5, 10.0, false, 0.0, 92.25)
  {
    var extras := [("pets", true)];
    assert extras[..0] == [];
    Round2Exact(92.25);
  }

  // ---------------------------------------------------------------------------
  // The service object
  // ---------------------------------------------------------------------------

  class PricingService {
    const catalog: seq<PricingOption>
    const log: QuoteLog
    var config: RateConfig

    /** The module starts with the default literal; the catalog and the history come from the mock data. */
    constructor (catalog: seq<PricingOption>, log: QuoteLog)
      ensures this.catalog == catalog && this.log == log
      ensures config == DefaultConfig()
    {
      this.catalog := catalog;
      this.log := log;
      config := DefaultConfig();
    }

    /** getAll: a copy of the catalog. */
    method GetAll() returns (r: seq<PricingOption>)
      ensures r == catalog
    {
      r := catalog;
    }

    /** getByHomeSize: the first catalog entry for that home size, or a not-found error. */
    method GetByHomeSize(homeSize: string) returns (r: Result<PricingOption>)
      ensures r.Err? <==> forall i :: 0 <= i < |catalog| ==> catalog[i].homeSize != homeSize
      ensures r.Err? ==> r.error == PricingNotFound(homeSize)
      ensures r.Ok? ==> exists i :: 0 <= i < |catalog| && catalog[i] == r.value && (forall j :: 0 <= j < i ==> catalog[j].homeSize != homeSize)
      ensures r.Ok? ==> r.value.homeSize == homeSize
    {
      match FirstWithSize(catalog, homeSize)
      case None => r := Err(PricingNotFound(homeSize));
      case Some(i) => r := Ok(catalog[i]);
    }

    /** calculateQuote, with its local accumulators. */
    method CalculateQuote(homeSize: string, frequency: string, extras: seq<(string, bool)>) returns (q: Quote)
      ensures q == QuoteFor(config, homeSize, frequency, extras)
    {
      var timeEstimate := if homeSize in config.timeEstimates && config.timeEstimates[homeSize] != 0.0
                          then config.timeEstimates[homeSize] else 3.0;
      assert timeEstimate == TimeEstimate(config, homeSize);
      var basePrice := config.hourlyRate * timeEstimate;

      var extraTotal := 0.0;
      var i := 0;
      while i < |extras|
        invariant 0 <= i <= |extras|
        invariant extraTotal == ExtraTotal(config, extras[..i])
      {
        var (key, selected) := extras[i];
        if selected && key in config.extraCharges && config.extraCharges[key].enabled {
          extraTotal := extraTotal + config.extraCharges[key].amount;
        }
        assert extras[..i + 1][..i] == extras[..i];
        i := i + 1;
      }
      assert extras[..|extras|] == extras;

      var subtotal := basePrice + extraTotal;
      var discount := if frequency in config.frequencyDiscounts && config.frequencyDiscounts[frequency] != 0.0
                      then config.frequencyDiscounts[frequency] else 0.0;
      assert subtotal == Subtotal(config, homeSize, extras);
      assert discount == DiscountFor(config, frequency);
      var totalPrice := subtotal * ((100.0 - discount) / 100.0);
      assert totalPrice == Discounted(subtotal, discount);

      if totalPrice < config.minimumCharge {
        totalPrice := config.minimumCharge;
      }
      assert totalPrice == WithMinimum(config, Discounted(subtotal, discount));
      if config.travelFee.enabled {
        totalPrice := totalPrice + config.travelFee.amount;
      }
      assert totalPrice == UnroundedTotal(config, homeSize, frequency, extras);

      q := Quote(
        homeSize, frequency, basePrice, extraTotal, subtotal, discount,
        totalPrice == config.minimumCharge && subtotal < config.minimumCharge,
        if config.travelFee.enabled then config.travelFee.amount else 0.0,
        Round2(totalPrice));
    }

    /** saveQuote: appends one record with the next Id and the given instant, and returns it. */
    method SaveQuote(quote: Quote, now: int) returns (saved: SavedQuote)
      modifies log
      ensures saved == SavedQuote(NextId(old(log.records)), now, quote.homeSize, quote.frequency, quote.totalPrice)
      ensures log.records == old(log.records) + [saved]
      ensures forall i :: 0 <= i < |old(log.records)| ==> old(log.records)[i].id != saved.id
    {
      var maxId := MaxId(log.records);
      saved := SavedQuote(maxId + 1, now, quote.homeSize, quote.frequency, quote.totalPrice);
      log.records := log.records + [saved];
    }

    /** getRateConfig. */
    method GetRateConfig() returns (c: RateConfig)
      ensures c == config
    {
      c := config;
    }

    /** updateRateConfig: a top-level merge of the given keys. */
    method UpdateRateConfig(patch: ConfigPatch) returns (c: RateConfig)
      modifies this
      ensures config == Merge(old(config), patch) && c == config
    {
      config := Merge(config, patch);
      c := config;
    }

    /** resetToDefaults: back to the default literal, whatever was there. */
    method ResetToDefaults() returns (c: RateConfig)
      modifies this
      ensures config == DefaultConfig() && c == config
    {
      config := DefaultConfig();
      c := config;
    }
  }
}

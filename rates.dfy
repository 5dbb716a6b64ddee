/** The rate configuration store's data: the pricing parameters, the default literal and the top-level merge. */
module Rates {
  import opened Wrappers

  datatype ExtraCharge = ExtraCharge(enabled: bool, amount: real, description: string)

  /** maxDistance is stored but never read by the calculation. */
  datatype TravelFee = TravelFee(enabled: bool, amount: real, maxDistance: real)

  /** Stored but never read by the calculation. */
  datatype RecurringDiscount = RecurringDiscount(enabled: bool, amount: real, description: string)

  datatype RateConfig = RateConfig(
    hourlyRate: real,
    timeEstimates: map<string, real>,         // home size -> hours
    extraCharges: map<string, ExtraCharge>,   // extra key -> charge
    frequencyDiscounts: map<string, real>,    // frequency -> percent off
    minimumCharge: real,
    travelFee: TravelFee,
    recurringDiscount: RecurringDiscount)

  /** A partial configuration: the top-level keys the caller passed, each with its new value. */
  datatype ConfigPatch = ConfigPatch(
    hourlyRate: Option<real>,
    timeEstimates: Option<map<string, real>>,
    extraCharges: Option<map<string, ExtraCharge>>,
    frequencyDiscounts: Option<map<string, real>>,
    minimumCharge: Option<real>,
    travelFee: Option<TravelFee>,
    recurringDiscount: Option<RecurringDiscount>)

  /** The patch that names no key. */
  function NoChange(): ConfigPatch {
    ConfigPatch(None, None, None, None, None, None, None)
  }

  /** The configuration the store starts with and that a reset restores. */
  function DefaultConfig(): (c: RateConfig)
    ensures c.hourlyRate == 25.0 && c.minimumCharge == 50.0
    ensures c.timeEstimates.Keys == {"Studio", "1 Bedroom", "2 Bedroom", "3+ Bedroom"}
    ensures c.frequencyDiscounts.Keys == {"One-time", "Weekly", "Bi-weekly", "Monthly"}
    ensures c.extraCharges.Keys == {"pets", "deepCleaning", "windows", "oven", "refrigerator"}
    ensures forall k :: k in c.extraCharges ==> c.extraCharges[k].enabled && c.extraCharges[k].amount > 0.0
    ensures !c.travelFee.enabled
  {
    RateConfig(
      25.0,
      map["Studio" := 2.0, "1 Bedroom" := 2.5, "2 Bedroom" := 3.5, "3+ Bedroom" := 5.0],
      map[
        "pets" := ExtraCharge(true, 15.0, "Pet hair and cleanup"),
        "deepCleaning" := ExtraCharge(true, 50.0, "Deep cleaning service"),
        "windows" := ExtraCharge(true, 25.0, "Interior window cleaning"),
        "oven" := ExtraCharge(true, 20.0, "Oven deep cleaning"),
        "refrigerator" := ExtraCharge(true, 15.0, "Refrigerator cleaning")],
      map["One-time" := 0.0, "Weekly" := 15.0, "Bi-weekly" := 10.0, "Monthly" := 5.0],
      50.0,
      TravelFee(false, 10.0, 15.0),
      RecurringDiscount(true, 5.0, "Loyal customer discount"))
  }

  /** Spread `{ ...c, ...p }`: every key the patch names is replaced, every other key is kept. */
  function Merge(c: RateConfig, p: ConfigPatch): RateConfig {
    RateConfig(
      if p.hourlyRate.Some? then p.hourlyRate.value else c.hourlyRate,
      if p.timeEstimates.Some? then p.timeEstimates.value else c.timeEstimates,
      if p.extraCharges.Some? then p.extraCharges.value else c.extraCharges,
      if p.frequencyDiscounts.Some? then p.frequencyDiscounts.value else c.frequencyDiscounts,
      if p.minimumCharge.Some? then p.minimumCharge.value else c.minimumCharge,
      if p.travelFee.Some? then p.travelFee.value else c.travelFee,
      if p.recurringDiscount.Some? then p.recurringDiscount.value else c.recurringDiscount)
  }

  /** Spread of two patches, `{ ...p, ...q }`: q's keys win. */
  function Combine(p: ConfigPatch, q: ConfigPatch): ConfigPatch {
    ConfigPatch(
      if q.hourlyRate.Some? then q.hourlyRate else p.hourlyRate,
      if q.timeEstimates.Some? then q.timeEstimates else p.timeEstimates,
      if q.extraCharges.Some? then q.extraCharges else p.extraCharges,
      if q.frequencyDiscounts.Some? then q.frequencyDiscounts else p.frequencyDiscounts,
      if q.minimumCharge.Some? then q.minimumCharge else p.minimumCharge,
      if q.travelFee.Some? then q.travelFee else p.travelFee,
      if q.recurringDiscount.Some? then q.recurringDiscount else p.recurringDiscount)
  }

  /** The merge is shallow and per key: a top-level key the patch names is replaced whole (nested maps included), every other key keeps its old value. */
  lemma MergeIsShallow(c: RateConfig, p: ConfigPatch)
    ensures p.hourlyRate.Some? ==> Merge(c, p).hourlyRate == p.hourlyRate.value
    ensures p.hourlyRate.None? ==> Merge(c, p).hourlyRate == c.hourlyRate
    ensures p.timeEstimates.Some? ==> Merge(c, p).timeEstimates == p.timeEstimates.value
    ensures p.timeEstimates.None? ==> Merge(c, p).timeEstimates == c.timeEstimates
    ensures p.extraCharges.Some? ==> Merge(c, p).extraCharges == p.extraCharges.value
    ensures p.extraCharges.None? ==> Merge(c, p).extraCharges == c.extraCharges
    ensures p.frequencyDiscounts.Some? ==> Merge(c, p).frequencyDiscounts == p.frequencyDiscounts.value
    ensures p.frequencyDiscounts.None? ==> Merge(c, p).frequencyDiscounts == c.frequencyDiscounts
    ensures p.minimumCharge.Some? ==> Merge(c, p).minimumCharge == p.minimumCharge.value
    ensures p.minimumCharge.None? ==> Merge(c, p).minimumCharge == c.minimumCharge
    ensures p.travelFee.Some? ==> Merge(c, p).travelFee == p.travelFee.value
    ensures p.travelFee.None? ==> Merge(c, p).travelFee == c.travelFee
    ensures p.recurringDiscount.Some? ==> Merge(c, p).recurringDiscount == p.recurringDiscount.value
    ensures p.recurringDiscount.None? ==> Merge(c, p).recurringDiscount == c.recurringDiscount
  {
  }

  /** Two updates in a row are one update with the combined patch, and an empty patch changes nothing. */
  lemma MergeComposes(c: RateConfig, p: ConfigPatch, q: ConfigPatch)
    ensures Merge(Merge(c, p), q) == Merge(c, Combine(p, q))
    ensures Merge(c, NoChange()) == c
    ensures Merge(Merge(c, p), p) == Merge(c, p)
  {
  }
}

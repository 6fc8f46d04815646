/** The partner's confirmation and the notice it is sent when prices are edited. */
module TariffNotices {
  import opened Options
  import opened Tariffs
  import opened Fingerprint
  import opened RatePlans
  import opened TariffReview
  import Rates

  function WithTables(h: Hotel, t: PriceTables): Hotel {
    h.(tables := t)
  }

  /** While documents and conditions stand, a tariff that applies goes on applying exactly while its price part stands. */
  lemma AppliesWhilePricesStand(c: Collation, h: Hotel, t: PriceTables, id: Id)
    requires PlansOk(h.plans) && Applies(c, h, id)
    ensures Applies(c, WithTables(h, t), id) <==> PricePart(c, t, id) == PricePart(c, h.tables, id)
  {
    assert PlanOk(id, h.plans[id]);
  }

  /** An edit of prices drops the confirmation of a tariff exactly when it requests a notice for it. */
  lemma NoticeIsLostConfirmation(c: Collation, le: (SnapshotLine, SnapshotLine) -> bool, h: Hotel, e: Rates.Edit, id: Id)
    requires Orders(c) && StringOrder(le) && PlansOk(h.plans) && Applies(c, h, id)
    requires Rates.Refusal(h.tables, e).None? && OneRowPerKey(PlanPrices(h.tables, id))
    ensures id in Rates.Notices(le, h.tables, e) <==> !Applies(c, WithTables(h, Rates.Edited(h.tables, e)), id)
  {
    AppliesWhilePricesStand(c, h, Rates.Edited(h.tables, e), id);
    Rates.NoticeWhenPricesMove(c, le, h.tables, e, id);
  }

  /** No run of price edits takes a confirmation away behind the partner's back. */
  lemma NoConfirmationLostSilently(c: Collation, le: (SnapshotLine, SnapshotLine) -> bool, h: Hotel, edits: seq<Rates.Edit>, id: Id)
    requires Orders(c) && StringOrder(le) && PlansOk(h.plans) && Applies(c, h, id)
    requires Rates.OneRowEverywhere(h.tables) && forall e :: e in edits ==> Rates.SentOnce(e)
    ensures var after := Rates.EditRun(le, Rates.Editor(h.tables, []), edits);
            !Applies(c, WithTables(h, after.tables), id) ==> id in after.notices
  {
    var start := Rates.Editor(h.tables, []);
    Rates.NoSilentMove(c, le, start, edits, id);
    var after := Rates.EditRun(le, start, edits);
    assert after.notices[|start.notices|..] == after.notices;
    AppliesWhilePricesStand(c, h, after.tables, id);
  }
}

/**
 The position the replay updates in place. `events` records every change
 ever made to it and `account` what they add up to, so that what the four numbers mean
 can be read off the run.
 */
module PositionLedger {
  import opened Common
  import opened Holdings

  class Position {
    var yesQty: real
    var noQty: real
    var totalYesSpent: real
    var totalNoSpent: real
    ghost var events: seq<Event>
    ghost var account: Account

    function View(): Holding
      reads this
    {
      Holding(Leg(yesQty, totalYesSpent), Leg(noQty, totalNoSpent))
    }

    /** The numbers held are what the recorded run leads to. */
    ghost predicate Valid()
      reads this
    {
      Records(events, View(), account)
    }

    constructor ()
      ensures Valid() && events == [] && View() == EMPTY && account == NOTHING_BOOKED
    {
      yesQty, noQty, totalYesSpent, totalNoSpent := 0.0, 0.0, 0.0, 0.0;
      events, account := [], NOTHING_BOOKED;
      NothingRecorded();
    }

    method SellYes(price: real, size: real) returns (realized: real)
      modifies `yesQty, `totalYesSpent
      ensures View() == AfterSell(old(View()), Yes, size)
      ensures realized == SellRealized(old(View()), Yes, price, size)
    {
      var sellQty := Min(size, yesQty);
      if sellQty <= 0.0 {
        return 0.0;
      }
      var avgCost := View().yes.Avg();
      totalYesSpent := totalYesSpent - avgCost * sellQty;
      yesQty := yesQty - sellQty;
      realized := (price - avgCost) * sellQty;
    }

    method SellNo(price: real, size: real) returns (realized: real)
      modifies `noQty, `totalNoSpent
      ensures View() == AfterSell(old(View()), No, size)
      ensures realized == SellRealized(old(View()), No, price, size)
    {
      var sellQty := Min(size, noQty);
      if sellQty <= 0.0 {
        return 0.0;
      }
      var avgCost := View().no.Avg();
      totalNoSpent := totalNoSpent - avgCost * sellQty;
      noQty := noQty - sellQty;
      realized := (price - avgCost) * sellQty;
    }

    method SellShares(outcome: Outcome, price: real, size: real) returns (realized: real)
      modifies `yesQty, `noQty, `totalYesSpent, `totalNoSpent
      ensures View() == AfterSell(old(View()), outcome, size)
      ensures realized == SellRealized(old(View()), outcome, price, size)
    {
      if outcome == Yes {
        realized := SellYes(price, size);
      } else {
        realized := SellNo(price, size);
      }
    }

    method AddShares(outcome: Outcome, price: real, size: real)
      modifies `yesQty, `noQty, `totalYesSpent, `totalNoSpent
      ensures View() == AfterBuy(old(View()), outcome, price, size)
    {
      if outcome == Yes {
        yesQty := yesQty + size;
        totalYesSpent := totalYesSpent + price * size;
      } else {
        noQty := noQty + size;
        totalNoSpent := totalNoSpent + price * size;
      }
    }

    /** Book one fill. A sell takes at most what is held and reports its profit over average cost. */
    method ApplyFill(side: Side, outcome: Outcome, price: real, size: real) returns (realized: real)
      requires Valid()
      requires 0.0 <= price && (side == Buy ==> 0.0 < size)
      modifies this
      ensures Valid()
      ensures var e := FillEvent(side, outcome, price, size);
        && events == old(events) + [e]
        && View() == After(old(View()), e)
        && account == old(account).Credit(old(View()), e)
        && realized == SellPnlBy(old(View()), e)
    {
      ghost var event := FillEvent(side, outcome, price, size);
      RecordEvent(events, View(), account, event);
      account := account.Credit(View(), event);
      realized := 0.0;
      if side == Buy {
        AddShares(outcome, price, size);
      } else {
        realized := SellShares(outcome, price, size);
      }
      events := events + [event];
    }

    method MergeShares(pairs: real) returns (realized: real)
      modifies `yesQty, `noQty, `totalYesSpent, `totalNoSpent
      ensures View() == AfterMerge(old(View()), pairs)
      ensures realized == MergeRealized(old(View()), pairs)
    {
      var k := Max(Min(pairs, View().Pairs()), 0.0);
      if k <= 0.0 {
        return 0.0;
      }
      var avgYes, avgNo := View().yes.Avg(), View().no.Avg();
      yesQty := yesQty - k;
      noQty := noQty - k;
      totalYesSpent := Max(totalYesSpent - avgYes * k, 0.0);
      totalNoSpent := Max(totalNoSpent - avgNo * k, 0.0);
      realized := k * (1.0 - (avgYes + avgNo));
    }

    /** Turn at most `pairs` complete pairs back into dollars and report the profit over their cost. */
    method RecordMerge(pairs: real) returns (realized: real)
      requires Valid()
      modifies this
      ensures Valid()
      ensures events == old(events) + [Merged(pairs)]
      ensures View() == After(old(View()), Merged(pairs))
      ensures account == old(account).Credit(old(View()), Merged(pairs))
      ensures realized == MergePnlBy(old(View()), Merged(pairs))
    {
      RecordEvent(events, View(), account, Merged(pairs));
      account := account.Credit(View(), Merged(pairs));
      realized := MergeShares(pairs);
      events := events + [Merged(pairs)];
    }
  }

  function FillEvent(side: Side, outcome: Outcome, price: real, size: real): Event {
    if side == Buy then Bought(outcome, price, size) else Sold(outcome, price, size)
  }
}

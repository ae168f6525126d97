/** The columns of a subscription that an event may carry or leave as they are. */
module Columns {
  import opened Core
  import opened Records
  import opened Entitlements

  // The columns an event may leave as they are.
  datatype Column = PeriodEnd | TrialEnd | SubscriptionID | AutoRenews

  datatype Cell = Time(t: Option<Instant>) | Text(s: string) | Flag(b: bool)

  function CellOf(row: Row, c: Column): Cell {
    match c
    case PeriodEnd => Time(row.periodEnd)
    case TrialEnd => Time(row.trialEnd)
    case SubscriptionID => Text(row.subID)
    case AutoRenews => Flag(row.autoRenews)
  }

  // What an event says of a column, if anything.
  function Carried(ev: WebhookEvent, c: Column): Option<Cell> {
    match c
    case PeriodEnd => if ev.periodEnd > 0 then Some(Time(Some(FromUnix(ev.periodEnd)))) else None
    case TrialEnd => if ev.trialEnd > 0 then Some(Time(Some(FromUnix(ev.trialEnd)))) else None
    case SubscriptionID => if ev.subscriptionID != "" then Some(Text(ev.subscriptionID)) else None
    case AutoRenews => None
  }

  // What a user's row says, or what is read when there is none.
  function StoredCell(subs: Subscriptions, u: string, c: Column): Cell {
    CellOf(if u in subs then subs[u] else NoSubscription(u), c)
  }

  // The read-time view changes none of them.
  lemma ViewKeepsCells(subs: Subscriptions, u: string, now: Instant, c: Column)
    ensures CellOf(ReadSubscription(subs, u, now), c) == StoredCell(subs, u, c)
  {
    if u in subs {
      ViewOverridesForceFree(subs[u], now);
    }
  }
}

/**
 * The subscription lifecycle (billing/subscriptions.service.ts): a gateway event creates or
 * renews, a user cancels at period end or reverses that, and a failed charge or an admin
 * cancels at once. There is no dunning state in between.
 */
module Subscriptions {
  import opened Prelude
  import opened Gateways

  datatype Status = ACTIVE | INACTIVE | CANCELED | TRIALING
  datatype Plan = BASIC | STANDARD | PREMIUM

  datatype Subscription = Subscription(
    status: Status, plan: Plan, periodStart: int, periodEnd: int,
    cancelAtPeriodEnd: bool, canceledAt: Option<int>)

  /** The one gateway row a subscription has. */
  datatype GatewayLink = GatewayLink(gateway: Gateway, gatewaySubscriptionId: string, gatewayCustomerId: string)

  datatype Rows = Rows(subs: map<string, Subscription>, links: map<string, GatewayLink>)

  datatype Error = NotFound | AlreadyCanceled | NotPendingCancellation | NotActive

  datatype Call =
    | FromGateway(user: string, plan: Plan, link: GatewayLink, periodStart: Option<int>, periodEnd: Option<int>, now: int)
    | CancelAtPeriodEnd(user: string)
    | CancelImmediately(user: string, now: int)
    | Reactivate(user: string)

  /** Why a call is rejected on these rows, if it is. */
  function Refusal(r: Rows, c: Call): Option<Error> {
    match c
    case FromGateway(_, _, _, _, _, _) => None
    case CancelImmediately(_, _) => None
    case CancelAtPeriodEnd(user) =>
      if user !in r.subs then Some(NotFound)
      else if r.subs[user].status == CANCELED then Some(AlreadyCanceled)
      else None
    case Reactivate(user) =>
      if user !in r.subs then Some(NotFound)
      else if !r.subs[user].cancelAtPeriodEnd then Some(NotPendingCancellation)
      else if r.subs[user].status != ACTIVE then Some(NotActive)
      else None
  }

  /** A period that an event leaves out starts now, and is thirty days. */
  function StartOf(periodStart: Option<int>, now: int): int {
    if periodStart.Some? then periodStart.value else now
  }

  function EndOf(periodEnd: Option<int>, now: int): int {
    if periodEnd.Some? then periodEnd.value else now + 30 * 24 * 60 * 60 * 1000
  }

  /** What an accepted call writes. */
  function Write(r: Rows, c: Call): Rows {
    match c
    case FromGateway(user, plan, link, s, e, now) =>
      Rows(r.subs[user := Subscription(ACTIVE, plan, StartOf(s, now), EndOf(e, now), false, None)], r.links[user := link])
    case CancelAtPeriodEnd(user) =>
      if user in r.subs then r.(subs := r.subs[user := r.subs[user].(cancelAtPeriodEnd := true)]) else r
    case CancelImmediately(user, now) =>
      if user in r.subs then
        r.(subs := r.subs[user := r.subs[user].(status := CANCELED, plan := BASIC, canceledAt := Some(now), cancelAtPeriodEnd := false)])
      else r
    case Reactivate(user) =>
      if user in r.subs then r.(subs := r.subs[user := r.subs[user].(cancelAtPeriodEnd := false)]) else r
  }

  function Serve(r: Rows, c: Call): Rows {
    if Refusal(r, c).Some? then r else Write(r, c)
  }

  function ServeAll(r: Rows, calls: seq<Call>): Rows {
    if calls == [] then r else Serve(ServeAll(r, calls[..|calls| - 1]), calls[|calls| - 1])
  }

  ghost predicate Consistent(s: Subscription) {
    && (s.status == ACTIVE || s.status == CANCELED)
    && (s.status == ACTIVE ==> s.canceledAt.None?)
    && (s.status == CANCELED ==> s.plan == BASIC && s.canceledAt.Some? && !s.cancelAtPeriodEnd)
  }

  ghost predicate Sound(r: Rows) {
    r.subs.Keys == r.links.Keys && forall u :: u in r.subs ==> Consistent(r.subs[u])
  }

  /**
   * Over any serial run from no subscriptions: an ACTIVE row has no cancellation date, a
   * CANCELED row has one, is on BASIC and is not pending cancellation, and every
   * subscription has its gateway row.
   */
  lemma {:induction false} LifecycleSound(r: Rows, calls: seq<Call>)
    requires Sound(r)
    ensures Sound(ServeAll(r, calls))
  {
    if calls != [] {
      var n := |calls| - 1;
      LifecycleSound(r, calls[..n]);
      var before, after := ServeAll(r, calls[..n]), ServeAll(r, calls);
      forall u | u in after.subs ensures Consistent(after.subs[u]) {
        if u in before.subs {
          assert Consistent(before.subs[u]);
        }
      }
    }
  }

  /** A canceled subscription stays exactly as canceled until a gateway event renews it. */
  lemma {:induction false} OnlyTheGatewayRevives(r: Rows, calls: seq<Call>, user: string)
    requires Sound(r)
    requires user in r.subs && r.subs[user].status == CANCELED
    requires forall k :: 0 <= k < |calls| && calls[k].FromGateway? ==> calls[k].user != user
    ensures var end := ServeAll(r, calls);
            user in end.subs && end.subs[user].status == CANCELED && end.subs[user].plan == BASIC && !end.subs[user].cancelAtPeriodEnd
  {
    if calls != [] {
      var n := |calls| - 1;
      OnlyTheGatewayRevives(r, calls[..n], user);
      LifecycleSound(r, calls[..n]);
    }
  }

  /**
   * Over any serial calls the last gateway event for a user decides: its plan, period and
   * gateway row stand, and the row is ACTIVE unless an immediate cancellation came after it,
   * which makes it CANCELED on BASIC.
   */
  lemma {:induction false} LastEventDecides(r: Rows, calls: seq<Call>, k: nat, user: string)
    requires k < |calls| && calls[k].FromGateway? && calls[k].user == user
    requires forall j :: k < j < |calls| && calls[j].FromGateway? ==> calls[j].user != user
    ensures var end := ServeAll(r, calls);
            var c := calls[k];
            var canceled := exists j :: k < j < |calls| && calls[j].CancelImmediately? && calls[j].user == user;
            && user in end.subs && user in end.links && end.links[user] == c.link
            && end.subs[user].periodStart == (if c.periodStart.Some? then c.periodStart.value else c.now)
            && end.subs[user].periodEnd == (if c.periodEnd.Some? then c.periodEnd.value else c.now + 2592000000)
            && end.subs[user].status == (if canceled then CANCELED else ACTIVE)
            && end.subs[user].plan == (if canceled then BASIC else c.plan)
  {
    var n := |calls| - 1;
    if k < n {
      LastEventDecides(r, calls[..n], k, user);
      assert forall j :: k < j < n ==> calls[..n][j] == calls[j];
      assert calls[n].CancelImmediately? && calls[n].user == user ==>
        exists j :: k < j < |calls| && calls[j].CancelImmediately? && calls[j].user == user;
    }
  }

  /** A user the gateway has sent no event for has no subscription. */
  lemma {:induction false} NoEventNoRow(r: Rows, calls: seq<Call>, user: string)
    requires user !in r.subs && user !in r.links
    requires forall j :: 0 <= j < |calls| && calls[j].FromGateway? ==> calls[j].user != user
    ensures user !in ServeAll(r, calls).subs && user !in ServeAll(r, calls).links
  {
    if calls != [] {
      NoEventNoRow(r, calls[..|calls| - 1], user);
    }
  }

  /**
   * The calls check a row and write it later. A cancel-at-period-end that passed its check
   * and writes after the row has moved on keeps the row consistent exactly when the row is
   * not CANCELED by then.
   */
  lemma LateCancelWrite(r: Rows, user: string)
    requires Sound(r) && user in r.subs
    ensures Sound(Write(r, CancelAtPeriodEnd(user))) <==> r.subs[user].status != CANCELED
  {
    var r' := Write(r, CancelAtPeriodEnd(user));
    assert Consistent(r.subs[user]);
    if r.subs[user].status == CANCELED {
      assert !Consistent(r'.subs[user]);
    } else {
      forall u | u in r'.subs ensures Consistent(r'.subs[u]) {
        assert Consistent(r.subs[u]);
      }
    }
  }

  class SubscriptionsService {
    var subs: map<string, Subscription>
    var links: map<string, GatewayLink>

    ghost function View(): Rows
      reads this
    {
      Rows(subs, links)
    }

    constructor ()
      ensures Sound(View()) && subs == map[]
    {
      subs, links := map[], map[];
    }

    /** An outer transaction puts back the rows it found. */
    method Restore(r: Rows)
      modifies this
      ensures View() == r
    {
      subs, links := r.subs, r.links;
    }

    method CreateOrUpdateFromGateway(user: string, plan: Plan, link: GatewayLink, periodStart: Option<int>, periodEnd: Option<int>, now: int)
      modifies this
      ensures user in subs && subs == old(subs)[user := subs[user]] && links == old(links)[user := link]
      ensures subs[user].status == ACTIVE && subs[user].plan == plan && !subs[user].cancelAtPeriodEnd && subs[user].canceledAt.None?
      ensures subs[user].periodStart == if periodStart.Some? then periodStart.value else now
      ensures subs[user].periodEnd == if periodEnd.Some? then periodEnd.value else now + 2592000000
      ensures View() == Serve(old(View()), FromGateway(user, plan, link, periodStart, periodEnd, now))
      ensures old(Sound(View())) ==> Sound(View())
    {
      ghost var before := View();
      var start := if periodStart.Some? then periodStart.value else now;
      var end := if periodEnd.Some? then periodEnd.value else now + 30 * 24 * 60 * 60 * 1000;
      if user in subs {
        subs := subs[user := subs[user].(plan := plan, status := ACTIVE, periodStart := start, periodEnd := end,
                                         cancelAtPeriodEnd := false, canceledAt := None)];
      } else {
        subs := subs[user := Subscription(ACTIVE, plan, start, end, false, None)];
      }
      links := links[user := link];
      OneCall(before, FromGateway(user, plan, link, periodStart, periodEnd, now));
    }

    method CancelAtPeriodEnd(user: string) returns (r: Result<Subscription, Error>)
      modifies this
      ensures r.Ok? <==> user in old(subs) && old(subs)[user].status != CANCELED
      ensures r.Err? ==> r.error == if user !in old(subs) then NotFound else AlreadyCanceled
      ensures links == old(links)
      ensures subs == if r.Ok? then old(subs)[user := old(subs)[user].(cancelAtPeriodEnd := true)] else old(subs)
      ensures View() == Serve(old(View()), Call.CancelAtPeriodEnd(user))
      ensures Refusal(old(View()), Call.CancelAtPeriodEnd(user)) == if r.Err? then Some(r.error) else None
      ensures r.Ok? ==> user in subs && r.value == subs[user] && r.value.cancelAtPeriodEnd
      ensures old(Sound(View())) ==> Sound(View())
    {
      OneCall(View(), Call.CancelAtPeriodEnd(user));
      if user !in subs {
        return Err(NotFound);
      }
      if subs[user].status == CANCELED {
        return Err(AlreadyCanceled);
      }
      subs := subs[user := subs[user].(cancelAtPeriodEnd := true)];
      return Ok(subs[user]);
    }

    method CancelImmediately(user: string, now: int) returns (updated: Option<Subscription>)
      modifies this
      ensures links == old(links)
      ensures subs == if user !in old(subs) then old(subs)
                      else old(subs)[user := old(subs)[user].(status := CANCELED, plan := BASIC, canceledAt := Some(now), cancelAtPeriodEnd := false)]
      ensures View() == Serve(old(View()), Call.CancelImmediately(user, now))
      ensures updated.Some? <==> user in old(subs)
      ensures updated.Some? ==> user in subs && updated.value == subs[user] && updated.value.status == CANCELED
      ensures old(Sound(View())) ==> Sound(View())
    {
      OneCall(View(), Call.CancelImmediately(user, now));
      if user !in subs {
        return None;
      }
      subs := subs[user := subs[user].(status := CANCELED, plan := BASIC, canceledAt := Some(now), cancelAtPeriodEnd := false)];
      return Some(subs[user]);
    }

    method Reactivate(user: string) returns (r: Result<Subscription, Error>)
      modifies this
      ensures r.Ok? <==> user in old(subs) && old(subs)[user].cancelAtPeriodEnd && old(subs)[user].status == ACTIVE
      ensures r.Err? ==> r.error == if user !in old(subs) then NotFound
                                    else if !old(subs)[user].cancelAtPeriodEnd then NotPendingCancellation else NotActive
      ensures links == old(links)
      ensures subs == if r.Ok? then old(subs)[user := old(subs)[user].(cancelAtPeriodEnd := false)] else old(subs)
      ensures View() == Serve(old(View()), Call.Reactivate(user))
      ensures Refusal(old(View()), Call.Reactivate(user)) == if r.Err? then Some(r.error) else None
      ensures r.Ok? ==> user in subs && r.value == subs[user] && !r.value.cancelAtPeriodEnd
      ensures old(Sound(View())) ==> Sound(View())
    {
      OneCall(View(), Call.Reactivate(user));
      if user !in subs {
        return Err(NotFound);
      }
      if !subs[user].cancelAtPeriodEnd {
        return Err(NotPendingCancellation);
      }
      if subs[user].status != ACTIVE {
        return Err(NotActive);
      }
      subs := subs[user := subs[user].(cancelAtPeriodEnd := false)];
      return Ok(subs[user]);
    }
  }

  lemma OneCall(r: Rows, c: Call)
    ensures Sound(r) ==> Sound(Serve(r, c))
  {
    if Sound(r) {
      assert [c][..0] == [];
      assert ServeAll(r, [c]) == Serve(r, c);
      LifecycleSound(r, [c]);
    }
  }
}

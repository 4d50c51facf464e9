/** The quota over every run of requests. */
module FaucetRuns {
  import opened Common
  import opened Faucet

  // ----- What a total counts -----

  /** The amounts of an event's attributes that parse. */
  function AttributesPaid(attributes: seq<Attribute>, denom: string): nat {
    if attributes == [] then 0
    else
      var a := attributes[|attributes| - 1];
      AttributesPaid(attributes[..|attributes| - 1], denom)
      + (if a.key == Amount && a.value.Coins? then AmountOf(a.value.coins, denom) else 0)
  }

  function EventPaid(e: Event, denom: string, since: int): nat {
    if e.kind == Transfer && e.time > since then AttributesPaid(e.attributes, denom) else 0
  }

  /** What the transfers after `since` add up to. */
  function Paid(events: seq<Event>, denom: string, since: int): nat {
    if events == [] then 0
    else Paid(events[..|events| - 1], denom, since) + EventPaid(events[|events| - 1], denom, since)
  }

  ghost predicate ReadBefore(clock: Clock, time: int) {
    forall i: nat, j: nat :: clock(i, j) <= time
  }

  ghost predicate ReadAfter(clock: Clock, time: int) {
    forall i: nat, j: nat :: clock(i, j) >= time
  }

  lemma {:induction false} CountedBounds(attributes: seq<Attribute>, n: nat, w: Window, time: int, clock: Clock, i: nat)
    requires n <= |attributes| && Counted(attributes, n, w, time, clock, i).Some?
    ensures
      var counted, paid := Counted(attributes, n, w, time, clock, i).value, AttributesPaid(attributes[..n], w.denom);
      && counted <= paid
      && ((forall j: nat :: clock(i, j) - time < w.length) ==> counted == paid)
      && ((forall j: nat :: clock(i, j) - time >= w.length) ==> counted == 0)
  {
    if n > 0 {
      CountedBounds(attributes, n - 1, w, time, clock, i);
      assert attributes[..n][..n - 1] == attributes[..n - 1];
    }
  }

  lemma EventBounds(e: Event, w: Window, clock: Clock, i: nat)
    requires EventTotal(e, w, clock, i).Some?
    ensures forall late :: ReadBefore(clock, late) ==>
      EventPaid(e, w.denom, late - w.length) <= EventTotal(e, w, clock, i).value
    ensures forall early :: ReadAfter(clock, early) ==>
      EventTotal(e, w, clock, i).value <= EventPaid(e, w.denom, early - w.length)
  {
    if e.kind == Transfer {
      CountedBounds(e.attributes, |e.attributes|, w, e.time, clock, i);
      assert e.attributes[..|e.attributes|] == e.attributes;
    }
  }

  /** A total counts every transfer within the window that ends at a time after its clock readings... */
  lemma {:induction false} CountsRecent(events: seq<Event>, n: nat, w: Window, clock: Clock, late: int)
    requires n <= |events| && Total(events, n, w, clock).Some? && ReadBefore(clock, late)
    ensures Paid(events[..n], w.denom, late - w.length) <= Total(events, n, w, clock).value
  {
    if n > 0 {
      CountsRecent(events, n - 1, w, clock, late);
      assert events[..n][..n - 1] == events[..n - 1];
      EventBounds(events[n - 1], w, clock, n - 1);
    }
  }

  /** ... and none from before the window that ends at a time before them. */
  lemma {:induction false} CountsOnlyRecent(events: seq<Event>, n: nat, w: Window, clock: Clock, early: int)
    requires n <= |events| && Total(events, n, w, clock).Some? && ReadAfter(clock, early)
    ensures Total(events, n, w, clock).value <= Paid(events[..n], w.denom, early - w.length)
  {
    if n > 0 {
      CountsOnlyRecent(events, n - 1, w, clock, early);
      assert events[..n][..n - 1] == events[..n - 1];
      EventBounds(events[n - 1], w, clock, n - 1);
    }
  }

  lemma {:induction false} PaidConcat(a: seq<Event>, b: seq<Event>, denom: string, since: int)
    ensures Paid(a + b, denom, since) == Paid(a, denom, since) + Paid(b, denom, since)
    decreases |b|
  {
    if b == [] {
      assert a + b == a;
    } else {
      assert (a + b)[..|a + b| - 1] == a + b[..|b| - 1];
      PaidConcat(a, b[..|b| - 1], denom, since);
    }
  }

  // ----- What the history holds -----

  lemma {:induction false} StampedHolds(events: seq<TxEvent>, time: int, e: Event)
    ensures e in Stamped(events, time) <==> e.time == time && TxEvent(e.kind, e.attributes) in events
  {
    if events != [] {
      var n := |events| - 1;
      StampedHolds(events[..n], time, e);
      assert events == events[..n] + [events[n]];
    }
  }

  lemma {:induction false} LogsHold(logs: seq<seq<TxEvent>>, time: int, e: Event)
    ensures e in LogEvents(logs, time) <==>
            e.time == time && exists i :: 0 <= i < |logs| && TxEvent(e.kind, e.attributes) in logs[i]
  {
    if logs != [] {
      var n := |logs| - 1;
      LogsHold(logs[..n], time, e);
      StampedHolds(logs[n], time, e);
    }
  }

  /** An event of this kind, with this text among its attributes, is in one of the transaction's logs. */
  predicate Logged(tx: Tx, kind: Kind, a: Attribute) {
    exists i, j :: 0 <= i < |tx.logs| && 0 <= j < |tx.logs[i]| && tx.logs[i][j].kind == kind
                   && a in tx.logs[i][j].attributes
  }

  /** The event is one of the transaction's, which the sender signed and which transfers to the recipient. */
  predicate Contributes(tx: Tx, sender: string, recipient: string, e: Event) {
    && Logged(tx, Message, Attribute(Sender, Text(sender)))
    && Logged(tx, Transfer, Attribute(Recipient, Text(recipient)))
    && e.time == tx.time && exists i :: 0 <= i < |tx.logs| && TxEvent(e.kind, e.attributes) in tx.logs[i]
  }

  lemma OneTxHolds(tx: Tx, sender: string, recipient: string, e: Event)
    ensures e in TxEvents(tx, sender, recipient) <==> Contributes(tx, sender, recipient, e)
  {
    LogsHold(tx.logs, tx.time, e);
    assert Selected(tx, sender, recipient) <==>
           Logged(tx, Message, Attribute(Sender, Text(sender)))
           && Logged(tx, Transfer, Attribute(Recipient, Text(recipient)));
  }

  predicate SomeContributes(txs: seq<Tx>, sender: string, recipient: string, e: Event) {
    exists i :: 0 <= i < |txs| && Contributes(txs[i], sender, recipient, e)
  }

  lemma LastContributes(txs: seq<Tx>, last: Tx, sender: string, recipient: string, e: Event)
    ensures SomeContributes(txs + [last], sender, recipient, e) <==>
            SomeContributes(txs, sender, recipient, e) || Contributes(last, sender, recipient, e)
  {
    var all := txs + [last];
    assert all[|txs|] == last;
    if i :| 0 <= i < |txs| && Contributes(txs[i], sender, recipient, e) {
      assert all[i] == txs[i];
    }
  }

  /** The history holds just the events of the transactions that the sender signed and that pay the recipient. */
  lemma {:induction false} HistoryHolds(txs: seq<Tx>, sender: string, recipient: string, e: Event)
    ensures e in History(txs, sender, recipient) <==> SomeContributes(txs, sender, recipient, e)
  {
    if txs != [] {
      var n := |txs| - 1;
      HistoryHolds(txs[..n], sender, recipient, e);
      OneTxHolds(txs[n], sender, recipient, e);
      assert txs == txs[..n] + [txs[n]];
      LastContributes(txs[..n], txs[n], sender, recipient, e);
    }
  }

  // ----- A send shows up in the history -----

  lemma SendSelected(sender: string, recipient: string, coins: seq<Coin>, time: int)
    ensures Selected(SendTx(sender, recipient, coins, time), sender, recipient)
  {
    var tx := SendTx(sender, recipient, coins, time);
    assert tx.logs[0][0].kind == Message && tx.logs[0][0].attributes[0] == Attribute(Sender, Text(sender));
    assert tx.logs[0][1].kind == Transfer && tx.logs[0][1].attributes[0] == Attribute(Recipient, Text(recipient));
  }

  lemma ThreeAttributes(a: Attribute, b: Attribute, c: Attribute, denom: string)
    requires a.key != Amount && b.key != Amount && c.key == Amount && c.value.Coins?
    ensures AttributesPaid([a, b, c], denom) == AmountOf(c.value.coins, denom)
  {
    assert [a, b, c][..2] == [a, b];
    assert [a, b][..1] == [a];
    assert AttributesPaid([a], denom) == 0;
    assert AttributesPaid([a, b], denom) == 0;
  }

  lemma TwoEvents(m: TxEvent, t: TxEvent, time: int)
    ensures LogEvents([[m, t]], time) == [Event(m.kind, m.attributes, time), Event(t.kind, t.attributes, time)]
  {
    assert [[m, t]][..0] == [];
    assert LogEvents([[m, t]], time) == [] + Stamped([m, t], time);
    assert [m, t][..1] == [m];
    assert Stamped([m], time) == [Event(m.kind, m.attributes, time)];
  }

  lemma TwoPaid(m: Event, t: Event, denom: string, since: int)
    requires m.kind != Transfer
    ensures Paid([m, t], denom, since) == EventPaid(t, denom, since)
  {
    assert [m, t][..1] == [m];
    assert Paid([m], denom, since) == 0;
  }

  lemma SendPaid(sender: string, recipient: string, coins: seq<Coin>, time: int, denom: string, since: int)
    ensures Paid(TxEvents(SendTx(sender, recipient, coins, time), sender, recipient), denom, since) ==
            if time > since then AmountOf(coins, denom) else 0
  {
    var tx := SendTx(sender, recipient, coins, time);
    SendSelected(sender, recipient, coins, time);
    var m, t := tx.logs[0][0], tx.logs[0][1];
    TwoEvents(m, t, time);
    TwoPaid(Event(m.kind, m.attributes, time), Event(t.kind, t.attributes, time), denom, since);
    ThreeAttributes(t.attributes[0], t.attributes[1], t.attributes[2], denom);
  }

  // ----- Runs -----

  /** A request served by the faucet, or a transaction somebody else gets into a block. */
  datatype Step = Serve(request: Request) | Foreign(tx: Tx)

  function After(l: Limits, b: Books, s: Step): Books {
    match s
    case Serve(r) => AfterRequest(l, b, r)
    case Foreign(tx) => b.(txs := b.txs + [tx])
  }

  function Run(l: Limits, txs: seq<Tx>, steps: seq<Step>): Books {
    if steps == [] then Books(txs, [])
    else After(l, Run(l, txs, steps[..|steps| - 1]), steps[|steps| - 1])
  }

  /** At most one coin of the denomination has a positive amount. */
  predicate SingleCoin(coins: seq<Coin>, denom: string) {
    forall i, j :: 0 <= i < j < |coins| && coins[i].denom == denom == coins[j].denom ==>
      coins[i].amount == 0 || coins[j].amount == 0
  }

  /** The clock was read before the block of the request's own transaction was made. */
  ghost predicate TimelyCoin(r: Request, i: nat) {
    r.sent.Some? ==> ReadBefore(r.probes(i).clock, r.sent.value)
  }

  /** A checked sum does not exceed 64 bits. */
  predicate Fits(l: Limits, txs: seq<Tx>, r: Request, i: nat)
    requires i < |r.coins|
  {
    var total := CoinTotal(l, txs, r, i);
    total.Some? && MaxOf(l, r.coins[i].denom) != 0 ==> total.value + r.coins[i].amount < TWO64
  }

  /** What the quota of a denomination asks of a request: nothing of its coins of other denominations. */
  ghost predicate Sound(l: Limits, txs: seq<Tx>, r: Request, denom: string) {
    && SingleCoin(r.coins, denom)
    && forall i: nat :: i < |r.coins| && r.coins[i].denom == denom ==> TimelyCoin(r, i) && Fits(l, txs, r, i)
  }

  ghost predicate SoundStep(l: Limits, txs: seq<Tx>, s: Step, denom: string) {
    s.Serve? ==> Sound(l, txs, s.request, denom)
  }

  ghost predicate SoundRun(l: Limits, txs: seq<Tx>, steps: seq<Step>, denom: string) {
    steps == [] ||
    var n := |steps| - 1;
    SoundRun(l, txs, steps[..n], denom) && SoundStep(l, Run(l, txs, steps[..n]).txs, steps[n], denom)
  }

  /** What was granted to an account at times from `from` on and before `to`. */
  function GrantedIn(grants: seq<Grant>, account: string, denom: string, from: int, to: int): nat {
    if grants == [] then 0
    else
      var g := grants[|grants| - 1];
      GrantedIn(grants[..|grants| - 1], account, denom, from, to)
      + (if g.recipient == account && from <= g.time < to then AmountOf(g.coins, denom) else 0)
  }

  lemma {:induction false} EarlierGrants(grants: seq<Grant>, account: string, denom: string, from: int, to: int,
                                         from': int, to': int)
    requires from' <= from && to <= to'
    ensures GrantedIn(grants, account, denom, from, to) <= GrantedIn(grants, account, denom, from', to')
  {
    if grants != [] {
      EarlierGrants(grants[..|grants| - 1], account, denom, from, to, from', to');
    }
  }

  lemma HistoryGrows(txs: seq<Tx>, tx: Tx, sender: string, recipient: string, denom: string, since: int)
    ensures Paid(History(txs + [tx], sender, recipient), denom, since) ==
            Paid(History(txs, sender, recipient), denom, since) + Paid(TxEvents(tx, sender, recipient), denom, since)
  {
    assert (txs + [tx])[..|txs|] == txs;
    PaidConcat(History(txs, sender, recipient), TxEvents(tx, sender, recipient), denom, since);
  }

  lemma GrantsGrow(grants: seq<Grant>, g: Grant, account: string, denom: string, from: int, to: int)
    ensures GrantedIn(grants + [g], account, denom, from, to) ==
            GrantedIn(grants, account, denom, from, to)
            + (if g.recipient == account && from <= g.time < to then AmountOf(g.coins, denom) else 0)
  {
  }

  /** What was granted to the account so far, after `since` and before `to`, is in the history. */
  predicate Visible(l: Limits, b: Books, account: string, denom: string, since: int, to: int) {
    GrantedIn(b.grants, account, denom, since + 1, to) <= Paid(History(b.txs, l.sender, account), denom, since)
  }

  /** Whatever was granted is in the history the next request reads. */
  lemma {:induction false} GrantsAreVisible(l: Limits, txs: seq<Tx>, steps: seq<Step>, account: string, denom: string,
                                            since: int, to: int)
    ensures Visible(l, Run(l, txs, steps), account, denom, since, to)
  {
    if steps != [] {
      var n := |steps| - 1;
      GrantsAreVisible(l, txs, steps[..n], account, denom, since, to);
      var b := Run(l, txs, steps[..n]);
      match steps[n]
      case Foreign(tx) => HistoryGrows(b.txs, tx, l.sender, account, denom, since);
      case Serve(r) =>
        if Granted(l, b.txs, r) {
          var time := r.sent.value;
          HistoryGrows(b.txs, SendTx(l.sender, r.recipient, r.coins, time), l.sender, account, denom, since);
          GrantsGrow(b.grants, Grant(r.recipient, r.coins, time), account, denom, since + 1, to);
          SendPaid(l.sender, r.recipient, r.coins, time, denom, since);
        }
    }
  }

  lemma {:induction false} AmountOfOne(coins: seq<Coin>, denom: string) returns (i: nat)
    requires SingleCoin(coins, denom) && AmountOf(coins, denom) > 0
    ensures i < |coins| && coins[i].denom == denom && coins[i].amount == AmountOf(coins, denom)
  {
    var n := |coins| - 1;
    if coins[n].denom == denom && coins[n].amount > 0 {
      NoAmount(coins[..n], denom);
      i := n;
    } else {
      i := AmountOfOne(coins[..n], denom);
    }
  }

  lemma {:induction false} NoAmount(coins: seq<Coin>, denom: string)
    requires forall i :: 0 <= i < |coins| && coins[i].denom == denom ==> coins[i].amount == 0
    ensures AmountOf(coins, denom) == 0
  {
    if coins != [] {
      NoAmount(coins[..|coins| - 1], denom);
    }
  }

  /** When the sum fits in 64 bits, the check of a coin is what it reads as. */
  lemma LimitIsKept(total: nat, amount: uint64, max: uint64)
    requires total + amount < TWO64
    ensures WithinLimit(total, amount, max) <==> max == 0 || (total < max && total + amount <= max)
  {
  }

  lemma TotalStaysWithin(events: seq<Event>, w: Window, clock: Clock, time: int, amount: uint64, max: uint64)
    requires AllOf(events, w, clock).Some? && ReadBefore(clock, time) && max != 0
    requires var total := AllOf(events, w, clock).value; total + amount < TWO64 && WithinLimit(total, amount, max)
    ensures Paid(events, w.denom, time - w.length) + amount <= max
  {
    CountsRecent(events, |events|, w, clock, time);
    assert events[..|events|] == events;
    LimitIsKept(AllOf(events, w, clock).value, amount, max);
  }

  lemma CoinStaysWithin(l: Limits, txs: seq<Tx>, r: Request, i: nat)
    requires i < |r.coins| && CoinPasses(l, txs, r, i) && r.sent.Some? && TimelyCoin(r, i) && Fits(l, txs, r, i)
    requires MaxOf(l, r.coins[i].denom) != 0
    ensures Paid(History(txs, l.sender, r.recipient), r.coins[i].denom, r.sent.value - l.window)
            + r.coins[i].amount <= MaxOf(l, r.coins[i].denom)
  {
    TotalStaysWithin(History(txs, l.sender, r.recipient), Window(r.coins[i].denom, l.window), r.probes(i).clock,
                     r.sent.value, r.coins[i].amount, MaxOf(l, r.coins[i].denom));
  }

  /** A granted request leaves the account within the limit, for every window its transaction is in - if what
      was granted before is in the history. */
  lemma GrantStaysWithin(l: Limits, b: Books, r: Request, denom: string, from: int)
    requires Sound(l, b.txs, r, denom) && Granted(l, b.txs, r)
    requires MaxOf(l, denom) != 0 && AmountOf(r.coins, denom) > 0 && from <= r.sent.value < from + l.window
    requires Visible(l, b, r.recipient, denom, r.sent.value - l.window, from + l.window)
    ensures GrantedIn(b.grants, r.recipient, denom, from, from + l.window) + AmountOf(r.coins, denom)
            <= MaxOf(l, denom)
  {
    var i := AmountOfOne(r.coins, denom);
    assert CoinPasses(l, b.txs, r, i) && TimelyCoin(r, i) && Fits(l, b.txs, r, i);
    CoinStaysWithin(l, b.txs, r, i);
    EarlierGrants(b.grants, r.recipient, denom, from, from + l.window, r.sent.value - l.window + 1, from + l.window);
  }

  lemma QuotaStep(l: Limits, b: Books, r: Request, account: string, denom: string, from: int)
    requires Sound(l, b.txs, r, denom) && MaxOf(l, denom) != 0 && Granted(l, b.txs, r)
    requires GrantedIn(b.grants, account, denom, from, from + l.window) <= MaxOf(l, denom)
    requires Visible(l, b, account, denom, r.sent.value - l.window, from + l.window)
    ensures GrantedIn(AfterRequest(l, b, r).grants, account, denom, from, from + l.window) <= MaxOf(l, denom)
  {
    GrantsGrow(b.grants, Grant(r.recipient, r.coins, r.sent.value), account, denom, from, from + l.window);
    if r.recipient == account && from <= r.sent.value < from + l.window && AmountOf(r.coins, denom) > 0 {
      GrantStaysWithin(l, b, r, denom, from);
    }
  }

  /** Over every run of requests and other transactions, what the faucet let through to an account within any
      window stays within the limit of the denomination. */
  lemma {:induction false} QuotaHolds(l: Limits, txs: seq<Tx>, steps: seq<Step>, account: string, denom: string,
                                      from: int)
    requires SoundRun(l, txs, steps, denom) && MaxOf(l, denom) != 0
    ensures GrantedIn(Run(l, txs, steps).grants, account, denom, from, from + l.window) <= MaxOf(l, denom)
  {
    if steps != [] {
      var n := |steps| - 1;
      QuotaHolds(l, txs, steps[..n], account, denom, from);
      var b := Run(l, txs, steps[..n]);
      if steps[n].Serve? && Granted(l, b.txs, steps[n].request) {
        var r := steps[n].request;
        GrantsAreVisible(l, txs, steps[..n], account, denom, r.sent.value - l.window, from + l.window);
        QuotaStep(l, b, r, account, denom, from);
      }
    }
  }

  // ----- What is let through -----

  /** All that is asked of the chain works, and the clock shows one time throughout. */
  ghost predicate ReadAt(r: Request, now: int) {
    forall c: nat :: r.probes(c).account && r.probes(c).query
                     && forall i: nat, j: nat :: r.probes(c).clock(i, j) == now
  }

  /** What the recipient got within the window that ends now. */
  function Got(l: Limits, txs: seq<Tx>, r: Request, denom: string, now: int): nat {
    Paid(History(txs, l.sender, r.recipient), denom, now - l.window)
  }

  predicate MaySend(l: Limits, txs: seq<Tx>, r: Request, i: nat, now: int)
    requires i < |r.coins|
  {
    var max, got := MaxOf(l, r.coins[i].denom), Got(l, txs, r, r.coins[i].denom, now);
    max == 0 || (got < max && got + r.coins[i].amount <= max)
  }

  lemma TotalIsPaid(events: seq<Event>, w: Window, clock: Clock, now: int)
    requires AllOf(events, w, clock).Some? && forall i: nat, j: nat :: clock(i, j) == now
    ensures AllOf(events, w, clock).value == Paid(events, w.denom, now - w.length)
  {
    CountsRecent(events, |events|, w, clock, now);
    CountsOnlyRecent(events, |events|, w, clock, now);
    assert events[..|events|] == events;
  }

  lemma CoinPassesJust(l: Limits, txs: seq<Tx>, r: Request, i: nat, now: int)
    requires ReadAt(r, now) && i < |r.coins| && CoinTotal(l, txs, r, i).Some?
    requires CoinTotal(l, txs, r, i).value + r.coins[i].amount < TWO64
    ensures CoinPasses(l, txs, r, i) <==> MaySend(l, txs, r, i, now)
  {
    var w, total := Window(r.coins[i].denom, l.window), CoinTotal(l, txs, r, i).value;
    TotalIsPaid(History(txs, l.sender, r.recipient), w, r.probes(i).clock, now);
    LimitIsKept(total, r.coins[i].amount, MaxOf(l, r.coins[i].denom));
  }

  /** Whatever the history, when its amounts can be added up: a request is granted if and only if it can be sent
      and for each coin with a maximum, what the recipient got within the window is below it, and at most it
      together with the coin. */
  lemma GrantedJust(l: Limits, txs: seq<Tx>, r: Request, now: int)
    requires ReadAt(r, now)
    requires forall i: nat :: i < |r.coins| ==>
      CoinTotal(l, txs, r, i).Some? && CoinTotal(l, txs, r, i).value + r.coins[i].amount < TWO64
    ensures Granted(l, txs, r) <==>
            r.account && r.sent.Some? && forall i: nat :: i < |r.coins| ==> MaySend(l, txs, r, i, now)
  {
    forall i: nat | i < |r.coins| ensures CoinPasses(l, txs, r, i) <==> MaySend(l, txs, r, i, now) {
      CoinPassesJust(l, txs, r, i, now);
    }
  }

  /** The amounts can be added up when every amount of a transfer parses and fits. */
  predicate Addable(events: seq<Event>, denom: string) {
    forall i, j :: 0 <= i < |events| && events[i].kind == Transfer && 0 <= j < |events[i].attributes|
                   && events[i].attributes[j].key == Amount ==>
      events[i].attributes[j].value.Coins? && AmountOf(events[i].attributes[j].value.coins, denom) < TWO64
  }

  lemma {:induction false} CountedAdds(attributes: seq<Attribute>, n: nat, w: Window, time: int, clock: Clock, i: nat)
    requires n <= |attributes|
    ensures Counted(attributes, n, w, time, clock, i).Some? <==>
            forall j :: 0 <= j < n && attributes[j].key == Amount ==>
              attributes[j].value.Coins? && AmountOf(attributes[j].value.coins, w.denom) < TWO64
  {
    if n > 0 {
      CountedAdds(attributes, n - 1, w, time, clock, i);
    }
  }

  lemma {:induction false} TotalAdds(events: seq<Event>, n: nat, w: Window, clock: Clock)
    requires n <= |events|
    ensures Total(events, n, w, clock).Some? <==> Addable(events[..n], w.denom)
  {
    if n > 0 {
      TotalAdds(events, n - 1, w, clock);
      var e := events[n - 1];
      CountedAdds(e.attributes, |e.attributes|, w, e.time, clock, n - 1);
      assert events[..n] == events[..n - 1] + [e];
      assert Addable(events[..n], w.denom) <==> Addable(events[..n - 1], w.denom) && Addable([e], w.denom);
    }
  }

  /** A total is refused exactly when the queries fail or an amount cannot be added. */
  lemma TotalExists(l: Limits, txs: seq<Tx>, r: Request, i: nat)
    requires i < |r.coins|
    ensures CoinTotal(l, txs, r, i).Some? <==>
            r.probes(i).account && r.probes(i).query
            && Addable(History(txs, l.sender, r.recipient), r.coins[i].denom)
  {
    var events := History(txs, l.sender, r.recipient);
    TotalAdds(events, |events|, Window(r.coins[i].denom, l.window), r.probes(i).clock);
    assert events[..|events|] == events;
  }

  // ----- What the quota rests on -----

  /** Everything the request asks for while it is served works. */
  ghost predicate Answered(r: Request) {
    r.account && r.sent.Some? && forall i: nat :: r.probes(i).account && r.probes(i).query
  }

  /** Whatever the limits, when the request is let through to an account with no transfers so far, it is within
      the maximum of the denomination. */
  ghost predicate WithinEveryLimit(r: Request, denom: string) {
    forall l: Limits :: Granted(l, [], r) && MaxOf(l, denom) != 0 ==> AmountOf(r.coins, denom) <= MaxOf(l, denom)
  }

  lemma FirstCoin(l: Limits, r: Request, i: nat)
    requires i < |r.coins| && r.probes(i).account && r.probes(i).query
    ensures CoinPasses(l, [], r, i) <==>
            MaxOf(l, r.coins[i].denom) == 0 || r.coins[i].amount <= MaxOf(l, r.coins[i].denom)
  {
    assert CoinTotal(l, [], r, i) == Some(0);
    LimitIsKept(0, r.coins[i].amount, MaxOf(l, r.coins[i].denom));
  }

  lemma {:induction false} LargestCoin(coins: seq<Coin>, denom: string) returns (k: nat)
    requires exists i :: 0 <= i < |coins| && coins[i].denom == denom
    ensures k < |coins| && coins[k].denom == denom
    ensures forall i :: 0 <= i < |coins| && coins[i].denom == denom ==> coins[i].amount <= coins[k].amount
  {
    var n := |coins| - 1;
    k := n;
    if exists i :: 0 <= i < n && coins[..n][i].denom == denom {
      k := LargestCoin(coins[..n], denom);
      assert forall i :: 0 <= i < n && coins[i].denom == denom ==> coins[..n][i].amount <= coins[k].amount;
      if coins[n].denom == denom && coins[n].amount > coins[k].amount {
        k := n;
      }
    } else {
      assert forall i :: 0 <= i < n ==> coins[..n][i] == coins[i];
    }
  }

  lemma {:induction false} AmountOfMore(coins: seq<Coin>, denom: string, i: nat)
    requires i < |coins| && coins[i].denom == denom
    ensures AmountOf(coins, denom) >= coins[i].amount
  {
    var n := |coins| - 1;
    if i < n {
      AmountOfMore(coins[..n], denom, i);
    }
  }

  lemma {:induction false} AmountOfTwo(coins: seq<Coin>, denom: string, i: nat, j: nat)
    requires i < j < |coins| && coins[i].denom == denom == coins[j].denom
    ensures AmountOf(coins, denom) >= coins[i].amount + coins[j].amount
  {
    var n := |coins| - 1;
    if j < n {
      AmountOfTwo(coins[..n], denom, i, j);
    } else {
      AmountOfMore(coins[..n], denom, i);
    }
  }

  /** With two positive coins of a denomination, the largest of them is a maximum that is exceeded. */
  lemma TwoCoinsExceed(r: Request, denom: string, i: nat, j: nat) returns (l: Limits)
    requires Answered(r) && i < j < |r.coins| && r.coins[i].denom == denom == r.coins[j].denom
    requires r.coins[i].amount > 0 && r.coins[j].amount > 0
    ensures Granted(l, [], r) && 0 < MaxOf(l, denom) < AmountOf(r.coins, denom)
  {
    var k := LargestCoin(r.coins, denom);
    l := Limits("", map[denom := r.coins[k].amount], 0);
    var other := if k == i then j else i;
    AmountOfTwo(r.coins, denom, if k < other then k else other, if k < other then other else k);
    forall c: nat | c < |r.coins| ensures CoinPasses(l, [], r, c) {
      FirstCoin(l, r, c);
    }
  }

  lemma OneCoinStaysWithin(l: Limits, r: Request, denom: string)
    requires Answered(r) && SingleCoin(r.coins, denom) && Granted(l, [], r) && MaxOf(l, denom) != 0
    ensures AmountOf(r.coins, denom) <= MaxOf(l, denom)
  {
    if AmountOf(r.coins, denom) > 0 {
      var i := AmountOfOne(r.coins, denom);
      assert CoinPasses(l, [], r, i);
      FirstCoin(l, r, i);
    }
  }

  /** A request is checked coin by coin, so it can exceed a maximum exactly when it holds two positive coins of
      one denomination. */
  lemma RepeatedDenomExceeds(r: Request, denom: string)
    requires Answered(r)
    ensures WithinEveryLimit(r, denom) <==> SingleCoin(r.coins, denom)
  {
    if SingleCoin(r.coins, denom) {
      forall l: Limits | Granted(l, [], r) && MaxOf(l, denom) != 0
        ensures AmountOf(r.coins, denom) <= MaxOf(l, denom)
      {
        OneCoinStaysWithin(l, r, denom);
      }
    } else {
      var i: nat, j: nat :| i < j < |r.coins| && r.coins[i].denom == denom == r.coins[j].denom
                            && r.coins[i].amount > 0 && r.coins[j].amount > 0;
      var l := TwoCoinsExceed(r, denom, i, j);
    }
  }

  /** Two halves that together exceed the maximum. */
  lemma TwoHalvesExceed(l: Limits, r: Request, half: Coin)
    requires r.coins == [half, half] && 0 < half.amount <= MaxOf(l, half.denom) < 2 * half.amount && Answered(r)
    ensures Granted(l, [], r)
    ensures AmountOf(AfterRequest(l, Books([], []), r).grants[0].coins, half.denom) > MaxOf(l, half.denom)
  {
    FirstCoin(l, r, 0);
    FirstCoin(l, r, 1);
    AmountOfTwo(r.coins, half.denom, 0, 1);
  }

  /** The check of a coin adds in 64 bits: with a limit, it lets a request through that exceeds the limit just
      when the sum is cut. */
  lemma LimitIsExceeded(total: nat, amount: uint64, max: uint64)
    requires max > 0 && WithinLimit(total, amount, max)
    ensures total + amount > max <==> total + amount >= TWO64
  {
  }

  lemma CutSumExceeds()
    ensures WithinLimit(1, TWO64 - 1, 2)
  {
  }
}

/**
  The faucet's transfer limiter: a quota over a sliding window, computed from the chain's own history.

  The chain is the list of its transactions. What the outside world decides during a request - clock
  readings, failing commands, the block time of a transaction - is an input of the request.
 */
module Faucet {
  import opened Common

  const TWO64: nat := 0x1_0000_0000_0000_0000

  /** The event types and attribute keys the faucet looks at, and any other. */
  datatype Kind = Message | Transfer | OtherKind(name: string)
  datatype Key = Sender | Recipient | Amount | OtherKey(name: string)

  type uint64 = x: nat | x < TWO64

  datatype Coin = Coin(denom: string, amount: uint64)

  /** An attribute's value: a list of coins, or text that does not parse as one. */
  datatype Value = Coins(coins: seq<Coin>) | Text(text: string)

  datatype Attribute = Attribute(key: Key, value: Value)

  datatype TxEvent = TxEvent(kind: Kind, attributes: seq<Attribute>)

  datatype Tx = Tx(time: int, logs: seq<seq<TxEvent>>)

  /** An event of a transaction, with the time of its block. */
  datatype Event = Event(kind: Kind, attributes: seq<Attribute>, time: int)

  // ----- The history of transfers -----

  predicate HasEvent(tx: Tx, kind: Kind, key: Key, value: string) {
    exists i, j :: 0 <= i < |tx.logs| && 0 <= j < |tx.logs[i]|
                   && tx.logs[i][j].kind == kind && Attribute(key, Text(value)) in tx.logs[i][j].attributes
  }

  /** The transactions the two event selectors of the query select. */
  predicate Selected(tx: Tx, sender: string, recipient: string) {
    HasEvent(tx, Message, Sender, sender) && HasEvent(tx, Transfer, Recipient, recipient)
  }

  function Stamped(events: seq<TxEvent>, time: int): seq<Event> {
    if events == [] then []
    else Stamped(events[..|events| - 1], time)
         + [Event(events[|events| - 1].kind, events[|events| - 1].attributes, time)]
  }

  function LogEvents(logs: seq<seq<TxEvent>>, time: int): seq<Event> {
    if logs == [] then [] else LogEvents(logs[..|logs| - 1], time) + Stamped(logs[|logs| - 1], time)
  }

  function TxEvents(tx: Tx, sender: string, recipient: string): seq<Event> {
    if Selected(tx, sender, recipient) then LogEvents(tx.logs, tx.time) else []
  }

  function History(txs: seq<Tx>, sender: string, recipient: string): seq<Event> {
    if txs == [] then []
    else History(txs[..|txs| - 1], sender, recipient) + TxEvents(txs[|txs| - 1], sender, recipient)
  }

  method AppendLogs(events: seq<Event>, tx: Tx) returns (more: seq<Event>)
    ensures more == events + LogEvents(tx.logs, tx.time)
  {
    more := events;
    for j := 0 to |tx.logs|
      invariant more == events + LogEvents(tx.logs[..j], tx.time)
    {
      assert tx.logs[..j + 1][..j] == tx.logs[..j];
      var outer, log := more, tx.logs[j];
      for k := 0 to |log|
        invariant more == outer + Stamped(log[..k], tx.time)
      {
        assert log[..k + 1][..k] == log[..k];
        more := more + [Event(log[k].kind, log[k].attributes, tx.time)];
      }
      assert log[..|log|] == log;
    }
    assert tx.logs[..|tx.logs|] == tx.logs;
  }

  method QueryTxEvents(txs: seq<Tx>, sender: string, recipient: string) returns (events: seq<Event>)
    ensures events == History(txs, sender, recipient)
  {
    events := [];
    for i := 0 to |txs|
      invariant events == History(txs[..i], sender, recipient)
    {
      assert txs[..i + 1][..i] == txs[..i];
      if Selected(txs[i], sender, recipient) {
        events := AppendLogs(events, txs[i]);
      }
    }
    assert txs[..|txs|] == txs;
  }

  // ----- The total transferred to an account -----

  function AmountOf(coins: seq<Coin>, denom: string): nat {
    if coins == [] then 0
    else AmountOf(coins[..|coins| - 1], denom)
         + (if coins[|coins| - 1].denom == denom then coins[|coins| - 1].amount else 0)
  }

  /** A reading of the clock for each attribute of each event. */
  type Clock = (nat, nat) -> int

  datatype Window = Window(denom: string, length: int)

  /** What the first n attributes of the i-th event add to the total; none if an amount does not parse or fit. */
  function Counted(attributes: seq<Attribute>, n: nat, w: Window, time: int, clock: Clock, i: nat): Option<nat>
    requires n <= |attributes|
  {
    if n == 0 then Some(0)
    else
      var a := attributes[n - 1];
      var before := Counted(attributes, n - 1, w, time, clock, i);
      if before.None? || a.key != Amount then before
      else if a.value.Text? || AmountOf(a.value.coins, w.denom) >= TWO64 then None
      else if clock(i, n - 1) - time < w.length then Some(before.value + AmountOf(a.value.coins, w.denom))
      else before
  }

  /** What the i-th event adds to the total. */
  function EventTotal(e: Event, w: Window, clock: Clock, i: nat): Option<nat> {
    if e.kind == Transfer then Counted(e.attributes, |e.attributes|, w, e.time, clock, i) else Some(0)
  }

  /** What the first n events add up to, before the sum is cut to 64 bits. */
  function Total(events: seq<Event>, n: nat, w: Window, clock: Clock): Option<nat>
    requires n <= |events|
  {
    if n == 0 then Some(0)
    else
      var before, counted := Total(events, n - 1, w, clock), EventTotal(events[n - 1], w, clock, n - 1);
      if before.None? || counted.None? then None else Some(before.value + counted.value)
  }

  function AllOf(events: seq<Event>, w: Window, clock: Clock): Option<nat> {
    Total(events, |events|, w, clock)
  }

  /** The answers a total depends on: whether the account is found and the query works, and the clock. */
  datatype Probe = Probe(account: bool, query: bool, clock: Clock)

  function Transferred(txs: seq<Tx>, sender: string, recipient: string, w: Window, p: Probe): Option<nat> {
    if p.account && p.query then AllOf(History(txs, sender, recipient), w, p.clock) else None
  }

  function Wrapped(x: nat): uint64 {
    x % TWO64
  }

  lemma WrappedSum(x: nat, y: nat)
    ensures Wrapped(Wrapped(x) + y) == Wrapped(x + y)
  {
  }

  method AddAttributes(start: uint64, e: Event, w: Window, clock: Clock, i: nat) returns (total: Option<uint64>)
    requires e.kind == Transfer
    ensures
      var sum := EventTotal(e, w, clock, i);
      total == if sum.Some? then Some(Wrapped(start + sum.value)) else None
  {
    var totalAmount := start;
    ghost var sum := 0;
    for j := 0 to |e.attributes|
      invariant Counted(e.attributes, j, w, e.time, clock, i) == Some(sum) && totalAmount == Wrapped(start + sum)
    {
      if e.attributes[j].key == Amount {
        var value := e.attributes[j].value;
        if value.Text? || AmountOf(value.coins, w.denom) >= TWO64 {
          CountedError(e.attributes, j + 1, w, e.time, clock, i);
          return None;
        }
        var amount := AmountOf(value.coins, w.denom);
        if amount > 0 && clock(i, j) - e.time < w.length {
          WrappedSum(start + sum, amount);
          totalAmount, sum := Wrapped(totalAmount + amount), sum + amount;
        }
      }
    }
    total := Some(totalAmount);
  }

  method AddEvents(events: seq<Event>, w: Window, clock: Clock) returns (total: Option<uint64>)
    ensures
      var sum := AllOf(events, w, clock);
      total == if sum.Some? then Some(Wrapped(sum.value)) else None
  {
    var totalAmount: uint64 := 0;
    ghost var sum := 0;
    for i := 0 to |events|
      invariant Total(events, i, w, clock) == Some(sum) && totalAmount == Wrapped(sum)
    {
      if events[i].kind == Transfer {
        var more := AddAttributes(totalAmount, events[i], w, clock, i);
        if more.None? {
          TotalError(events, i + 1, w, clock);
          return None;
        }
        ghost var added := EventTotal(events[i], w, clock, i).value;
        WrappedSum(sum, added);
        totalAmount, sum := more.value, sum + added;
      }
    }
    total := Some(totalAmount);
  }

  method TotalTransferredAmount(txs: seq<Tx>, sender: string, recipient: string, w: Window, p: Probe)
    returns (total: Option<uint64>)
    ensures
      var sum := Transferred(txs, sender, recipient, w, p);
      total == if sum.Some? then Some(Wrapped(sum.value)) else None
  {
    if !p.account || !p.query {
      return None;
    }
    var events := QueryTxEvents(txs, sender, recipient);
    total := AddEvents(events, w, p.clock);
  }

  lemma {:induction false} CountedError(attributes: seq<Attribute>, n: nat, w: Window, time: int, clock: Clock, i: nat)
    requires n <= |attributes| && Counted(attributes, n, w, time, clock, i).None?
    ensures Counted(attributes, |attributes|, w, time, clock, i).None?
    decreases |attributes| - n
  {
    if n < |attributes| {
      CountedError(attributes, n + 1, w, time, clock, i);
    }
  }

  lemma {:induction false} TotalError(events: seq<Event>, n: nat, w: Window, clock: Clock)
    requires n <= |events| && Total(events, n, w, clock).None?
    ensures AllOf(events, w, clock).None?
    decreases |events| - n
  {
    if n < |events| {
      TotalError(events, n + 1, w, clock);
    }
  }

  // ----- A transfer -----

  /** How the chain answers one query for a transaction. */
  datatype Reply = Found(code: nat) | NotFound | Failed

  /** The reply that ends the wait is the k-th: a transaction found with code 0. */
  predicate ConfirmedAt(replies: nat -> Reply, k: nat) {
    replies(k) == Found(0) && forall i: nat :: i < k ==> replies(i) == NotFound
  }

  /** The wait is still on at the k-th query: `maxRetry` queries, if it is positive, have not missed, and the
      context has not ended, which it does after `patience` more queries than the first. */
  predicate StillWaiting(maxRetry: int, patience: nat, k: nat) {
    k <= patience && (maxRetry > 0 ==> k < maxRetry)
  }

  /** Some query the wait gets to finds the transaction with code 0. */
  ghost predicate Confirms(replies: nat -> Reply, maxRetry: int, patience: nat) {
    exists k: nat :: StillWaiting(maxRetry, patience, k) && ConfirmedAt(replies, k)
  }

  /** Waits until the transaction is found, until `maxRetry` queries did not find it - for ever, if that is not
      positive - or until the context ends. */
  method WaitTx(replies: nat -> Reply, maxRetry: int, patience: nat) returns (ok: bool)
    ensures ok <==> Confirms(replies, maxRetry, patience)
  {
    var retry: nat := 0;
    while true
      invariant StillWaiting(maxRetry, patience, retry) && forall i: nat :: i < retry ==> replies(i) == NotFound
      decreases patience - retry
    {
      var reply := replies(retry);
      if reply.NotFound? {
        retry := retry + 1;
        if retry == maxRetry || retry > patience {
          return false;
        }
      } else {
        assert reply == Found(0) ==> ConfirmedAt(replies, retry);
        return reply == Found(0);
      }
    }
  }

  const MAX_RETRY: int := 30

  /** While nothing is found, the wait goes on for thirty queries and not one more, and not beyond its context. */
  lemma ThirtyQueries(replies: nat -> Reply, patience: nat)
    requires forall i: nat :: i < 29 ==> replies(i) == NotFound
    ensures Confirms(replies, MAX_RETRY, patience) <==> replies(29) == Found(0) && patience >= 29
  {
    if replies(29) == Found(0) && patience >= 29 {
      assert StillWaiting(MAX_RETRY, patience, 29) && ConfirmedAt(replies, 29);
    }
  }

  /** The first reply decides, whatever it is: found with another code, or an error, ends the wait as well. */
  lemma FirstReplyDecides(replies: nat -> Reply, maxRetry: int, patience: nat)
    requires replies(0) != NotFound
    ensures Confirms(replies, maxRetry, patience) <==> replies(0) == Found(0)
  {
    if replies(0) == Found(0) {
      assert StillWaiting(maxRetry, patience, 0) && ConfirmedAt(replies, 0);
    }
  }

  /** Without a limit only the context ends the wait. */
  lemma UnlimitedQueries(replies: nat -> Reply, n: nat, patience: nat)
    requires replies(n) == Found(0) && forall i: nat :: i < n ==> replies(i) == NotFound
    ensures Confirms(replies, 0, patience) <==> n <= patience
  {
    if n <= patience {
      assert StillWaiting(0, patience, n) && ConfirmedAt(replies, n);
    }
  }

  /** A request, with everything the outside world decides while it is served: a probe for each coin, whether
      the account is found before sending, the block time of the send if it works, the replies of the wait, and
      when its context ends. */
  datatype Request = Request(
    recipient: string,
    coins: seq<Coin>,
    probes: nat -> Probe,
    account: bool,
    sent: Option<int>,
    replies: nat -> Reply,
    patience: nat)

  /** A transfer that was let through. */
  datatype Grant = Grant(recipient: string, coins: seq<Coin>, time: int)

  datatype Books = Books(txs: seq<Tx>, grants: seq<Grant>)

  datatype Limits = Limits(sender: string, coinsMax: map<string, uint64>, window: int)

  function MaxOf(l: Limits, denom: string): uint64 {
    if denom in l.coinsMax then l.coinsMax[denom] else 0
  }

  function CoinTotal(l: Limits, txs: seq<Tx>, r: Request, i: nat): Option<nat>
    requires i < |r.coins|
  {
    Transferred(txs, l.sender, r.recipient, Window(r.coins[i].denom, l.window), r.probes(i))
  }

  /** The check of one coin, in 64-bit arithmetic. */
  predicate WithinLimit(total: nat, amount: uint64, max: uint64) {
    max == 0 || (Wrapped(total) < max && Wrapped(Wrapped(total) + amount) <= max)
  }

  predicate CoinPasses(l: Limits, txs: seq<Tx>, r: Request, i: nat)
    requires i < |r.coins|
  {
    var total := CoinTotal(l, txs, r, i);
    total.Some? && WithinLimit(total.value, r.coins[i].amount, MaxOf(l, r.coins[i].denom))
  }

  predicate Passes(l: Limits, txs: seq<Tx>, r: Request) {
    forall i :: 0 <= i < |r.coins| ==> CoinPasses(l, txs, r, i)
  }

  /** The transaction of a bank send. */
  function SendTx(sender: string, recipient: string, coins: seq<Coin>, time: int): Tx {
    Tx(time, [[TxEvent(Message, [Attribute(Sender, Text(sender))]),
               TxEvent(Transfer, [Attribute(Recipient, Text(recipient)), Attribute(Sender, Text(sender)),
                                  Attribute(Amount, Coins(coins))])]])
  }

  predicate Granted(l: Limits, txs: seq<Tx>, r: Request) {
    Passes(l, txs, r) && r.account && r.sent.Some?
  }

  function AfterRequest(l: Limits, b: Books, r: Request): Books {
    if Granted(l, b.txs, r) then
      Books(b.txs + [SendTx(l.sender, r.recipient, r.coins, r.sent.value)],
            b.grants + [Grant(r.recipient, r.coins, r.sent.value)])
    else b
  }

  class Chain {
    const limits: Limits
    var txs: seq<Tx>
    ghost var grants: seq<Grant>

    constructor (limits: Limits, txs: seq<Tx>)
      ensures this.limits == limits && Now() == Books(txs, [])
    {
      this.limits := limits;
      this.txs := txs;
      grants := [];
    }

    ghost function Now(): Books
      reads this
    {
      Books(txs, grants)
    }

    method BankSend(recipient: string, coins: seq<Coin>, time: int)
      modifies this
      ensures Now() == Books(old(txs) + [SendTx(limits.sender, recipient, coins, time)],
                             old(grants) + [Grant(recipient, coins, time)])
    {
      txs := txs + [SendTx(limits.sender, recipient, coins, time)];
      grants := grants + [Grant(recipient, coins, time)];
    }

    /** Checks every coin against its limit, sends them all in one transaction, and waits for it. */
    method Transfer(r: Request) returns (ok: bool)
      modifies this
      ensures Now() == AfterRequest(limits, old(Now()), r)
      ensures ok <==> Granted(limits, old(txs), r) && Confirms(r.replies, MAX_RETRY, r.patience)
    {
      var sending: seq<Coin> := [];
      for i := 0 to |r.coins|
        invariant Now() == old(Now()) && sending == r.coins[..i]
        invariant forall k :: 0 <= k < i ==> CoinPasses(limits, txs, r, k)
      {
        var c := r.coins[i];
        var total := TotalTransferredAmount(
          txs, limits.sender, r.recipient, Window(c.denom, limits.window), r.probes(i));
        if total.None? {
          assert !CoinPasses(limits, txs, r, i);
          return false;
        }
        var max := MaxOf(limits, c.denom);
        if max != 0 {
          if total.value >= max {
            assert !CoinPasses(limits, txs, r, i);
            return false;
          }
          if Wrapped(total.value + c.amount) > max {
            assert !CoinPasses(limits, txs, r, i);
            return false;
          }
        }
        sending := sending + [c];
      }
      assert sending == r.coins;
      if !r.account || r.sent.None? {
        return false;
      }
      BankSend(r.recipient, sending, r.sent.value);
      ok := WaitTx(r.replies, MAX_RETRY, r.patience);
    }
  }
}

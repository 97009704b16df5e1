/** The live run's own record of outbound messages. The adapter's ledger file may drop settled records at any time, so
    every record ever seen outbound is kept, and replies are counted on what was kept. */
module DeliveryLedger {
  import opened Outcomes

  datatype Record = Record(id: string, state: string)

  datatype Stop = OutboundBudget | OperatorBudget | OperatorStopped | NoReplyInTime | NotAsExpected

  predicate IsOutbound(state: string) {
    state == "sending" || state == "sent" || state == "uncertain" || state == "rejected"
  }

  // ---- what has been observed ----

  function ObserveRecord(outbound: map<string, string>, r: Record): map<string, string> {
    if r.id in outbound || IsOutbound(r.state) then outbound[r.id := r.state] else outbound
  }

  function ObserveAll(outbound: map<string, string>, snapshot: seq<Record>): map<string, string> {
    if snapshot == [] then outbound
    else ObserveRecord(ObserveAll(outbound, snapshot[..|snapshot| - 1]), snapshot[|snapshot| - 1])
  }

  function Outbound(history: seq<seq<Record>>): map<string, string> {
    if history == [] then map[] else ObserveAll(Outbound(history[..|history| - 1]), history[|history| - 1])
  }

  /** Some snapshot showed the id in one of the four outbound states. */
  predicate EverOutbound(history: seq<seq<Record>>, id: string) {
    exists s, r :: s in history && r in s && r.id == id && IsOutbound(r.state)
  }

  lemma {:induction false} ObserveAllKeys(outbound: map<string, string>, snapshot: seq<Record>)
    ensures forall id :: id in ObserveAll(outbound, snapshot) <==>
              id in outbound || exists r :: r in snapshot && r.id == id && IsOutbound(r.state)
  {
    hide IsOutbound;
    if snapshot != [] {
      var front, last := snapshot[..|snapshot| - 1], snapshot[|snapshot| - 1];
      ObserveAllKeys(outbound, front);
      assert forall r :: r in snapshot <==> r in front || r == last;
    }
  }

  /** The kept record holds exactly the ids ever seen outbound, however the ledger file was compacted meanwhile. */
  lemma {:induction false} OutboundIsEverOutbound(history: seq<seq<Record>>)
    ensures forall id :: id in Outbound(history) <==> EverOutbound(history, id)
  {
    hide IsOutbound;
    if history != [] {
      var front, last := history[..|history| - 1], history[|history| - 1];
      OutboundIsEverOutbound(front);
      ObserveAllKeys(Outbound(front), last);
      assert forall s :: s in history <==> s in front || s == last;
    }
  }

  /** The kept record never shrinks. */
  lemma {:induction false} OutboundNeverShrinks(history: seq<seq<Record>>, n: nat)
    requires n <= |history|
    ensures Outbound(history[..n]).Keys <= Outbound(history).Keys
  {
    OutboundIsEverOutbound(history);
    OutboundIsEverOutbound(history[..n]);
  }

  /** The state kept for an id is the one its latest record showed. */
  lemma {:induction false} LatestStateKept(history: seq<seq<Record>>, snapshot: seq<Record>, i: nat)
    requires i < |snapshot| && snapshot[i].id in Outbound(history + [snapshot])
    requires forall j :: i < j < |snapshot| ==> snapshot[j].id != snapshot[i].id
    ensures Outbound(history + [snapshot])[snapshot[i].id] == snapshot[i].state
  {
    assert (history + [snapshot])[..|history|] == history;
    LatestInSnapshot(Outbound(history), snapshot, i);
  }

  lemma {:induction false} LatestInSnapshot(outbound: map<string, string>, snapshot: seq<Record>, i: nat)
    requires i < |snapshot| && snapshot[i].id in ObserveAll(outbound, snapshot)
    requires forall j :: i < j < |snapshot| ==> snapshot[j].id != snapshot[i].id
    ensures ObserveAll(outbound, snapshot)[snapshot[i].id] == snapshot[i].state
  {
    if i < |snapshot| - 1 {
      assert snapshot[..|snapshot| - 1][i] == snapshot[i];
      LatestInSnapshot(outbound, snapshot[..|snapshot| - 1], i);
    }
  }

  // ---- the live run ----

  /** A probe while waiting for replies: the ledger as it reads then, and whether an owner card is still pending. A
      sample taken in the background meanwhile is a probe that cannot end the wait either. */
  datatype Probe = Probe(snapshot: seq<Record>, ownerPending: bool)

  class LiveRun {
    const maxOutbound: nat
    const maxOperator: nat
    var cardMessages: nat
    var outbound: map<string, string>
    var baseline: set<string>
    var operatorMessages: nat
    ghost var history: seq<seq<Record>>

    constructor (maxOutbound: nat, maxOperator: nat, cardMessages: nat)
      ensures Valid() && history == [] && operatorMessages == 0
      ensures this.maxOutbound == maxOutbound && this.maxOperator == maxOperator && this.cardMessages == cardMessages
    {
      this.maxOutbound, this.maxOperator, this.cardMessages := maxOutbound, maxOperator, cardMessages;
      outbound, baseline, operatorMessages, history := map[], {}, 0, [];
    }

    ghost predicate Valid()
      reads this
    {
      outbound == Outbound(history) && baseline <= outbound.Keys && operatorMessages <= maxOperator
    }

    method ObserveLedger(ledger: seq<Record>) returns (r: Result<nat, Stop>)
      requires Valid()
      modifies this`outbound, this`history
      ensures Valid() && history == old(history) + [ledger]
      ensures r == if |outbound| + cardMessages > maxOutbound then Err(OutboundBudget) else Ok(|outbound|)
    {
      for i := 0 to |ledger|
        invariant outbound == ObserveAll(old(outbound), ledger[..i]) && history == old(history)
      {
        var record := ledger[i];
        if record.id in outbound || IsOutbound(record.state) { outbound := outbound[record.id := record.state]; }
        assert ledger[..i + 1][..i] == ledger[..i];
      }
      assert ledger[..|ledger|] == ledger;
      history := history + [ledger];
      assert history[..|history| - 1] == old(history);
      OutboundNeverShrinks(history, |history| - 1);
      if |outbound| + cardMessages > maxOutbound { return Err(OutboundBudget); }
      r := Ok(|outbound|);
    }

    /** The operator's next message: what was outbound before it becomes the baseline of the replies to come. */
    method OwnerSends(ledger: seq<Record>, stopped: bool) returns (r: Result<nat, Stop>)
      requires Valid()
      modifies this
      ensures Valid() && history == old(history) + [ledger]
      ensures r == if |outbound| + cardMessages > maxOutbound then Err(OutboundBudget)
                   else if old(operatorMessages) == maxOperator then Err(OperatorBudget)
                   else if stopped then Err(OperatorStopped)
                   else Ok(|outbound|)
      // The baseline is taken before the operator's budget is looked at, and a stop comes after the message is counted.
      ensures baseline == (if r == Err(OutboundBudget) then old(baseline) else outbound.Keys)
      ensures operatorMessages == old(operatorMessages) + if r.Ok? || r == Err(OperatorStopped) then 1 else 0
      ensures cardMessages == old(cardMessages)
    {
      r := ObserveLedger(ledger);
      if r.Err? { return; }
      baseline := outbound.Keys;
      if operatorMessages + 1 > maxOperator { return Err(OperatorBudget); }
      operatorMessages := operatorMessages + 1;
      if stopped { return Err(OperatorStopped); }
    }

    /** Waits until enough is outbound, lets the replies settle, and passes only when the total is exactly as expected
        and everything since the operator's message was sent. A pending owner card holds the wait back. */
    method ExpectReplies(expectedTotal: nat, probes: seq<Probe>, settled: seq<Record>, responseOk: bool) returns (r: Result<nat, Stop>)
      requires Valid()
      modifies this`outbound, this`history
      ensures Valid() && old(history) <= history
      ensures forall s :: s in history ==> s in old(history) || s == settled || exists p :: p in probes && p.snapshot == s
      ensures forall id :: id in outbound <==> EverOutbound(history, id)
      ensures r.Ok? ==>
                && |outbound.Keys| == expectedTotal
                && (forall id :: EverOutbound(history, id) && id !in baseline ==> id in outbound && outbound[id] == "sent")
                && expectedTotal + cardMessages <= maxOutbound && responseOk
                && exists p :: p in probes && !p.ownerPending
      ensures r == Err(NotAsExpected) ==>
                |outbound| != expectedTotal || !responseOk || exists id :: id in outbound && EverOutbound(history, id) && id !in baseline && outbound[id] != "sent"
    {
      var enough := false;
      var n := 0;
      while n < |probes| && !enough
        invariant n <= |probes| && Valid() && old(history) <= history
        invariant forall s :: s in history ==> s in old(history) || exists p :: p in probes && p.snapshot == s
        invariant enough ==> exists p :: p in probes && !p.ownerPending
      {
        var size := ObserveLedger(probes[n].snapshot);
        OutboundIsEverOutbound(history);
        if size.Err? { return size; }
        if !probes[n].ownerPending { enough := size.value >= expectedTotal; }
        n := n + 1;
      }
      OutboundIsEverOutbound(history);
      if !enough { return Err(NoReplyInTime); }
      var size := ObserveLedger(settled);
      OutboundIsEverOutbound(history);
      if size.Err? { return size; }
      var added := set id | id in outbound && id !in baseline;
      FreshCount(outbound.Keys, baseline);
      assert added == outbound.Keys - baseline;
      assert |outbound| == |outbound.Keys|;
      var ok := |outbound| == expectedTotal && |added| == expectedTotal - |baseline| && (forall id :: id in added ==> outbound[id] == "sent") && responseOk;
      if !ok { return Err(NotAsExpected); }
      r := Ok(|added|);
    }
  }

  /** The second count the program makes follows from the first, because nothing kept is ever dropped. */
  lemma FreshCount(keys: set<string>, baseline: set<string>)
    requires baseline <= keys
    ensures |keys - baseline| == |keys| - |baseline|
  {
    assert keys == baseline + (keys - baseline);
  }
}

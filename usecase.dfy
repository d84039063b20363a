/** The payment use case (internal/usecase/payment.go) over in-memory stores:
    recording payments, enrolling payers, deleting payments, and the settlement
    report. */
module Usecase {

  import opened Wrappers
  import opened ValueObject
  import opened Entity

  datatype SettlementInstruction = SettlementInstruction(from: PayerID, to: PayerID, amount: Yen)

  datatype Settlement = Settlement(total: Yen, instructions: seq<SettlementInstruction>)

  // ---------------------------------------------------------------------------
  // Reference definitions over a list of payments, each peeling the last one.

  /** The payments of one event, in store order (`payments.FindByEventID`). */
  function PaymentsOfEvent(ps: seq<Payment>, e: EventID): seq<Payment>
  {
    if ps == [] then []
    else
      var last := ps[|ps| - 1];
      PaymentsOfEvent(ps[..|ps| - 1], e) + (if last.eventID == e then [last] else [])
  }

  /** The sum of all amounts. */
  function SumAmounts(ps: seq<Payment>): int
  {
    if ps == [] then 0 else SumAmounts(ps[..|ps| - 1]) + ps[|ps| - 1].amount.Int64()
  }

  /** What one payer paid in total. */
  function PaidBy(ps: seq<Payment>, p: PayerID): int
  {
    if ps == [] then 0
    else PaidBy(ps[..|ps| - 1], p) + (if ps[|ps| - 1].payerID == p then ps[|ps| - 1].amount.Int64() else 0)
  }

  /** The payers that made at least one payment. */
  function PayersIn(ps: seq<Payment>): set<PayerID>
  {
    if ps == [] then {} else PayersIn(ps[..|ps| - 1]) + {ps[|ps| - 1].payerID}
  }

  /** The sum of the amounts of payments made by payers in `s`. */
  function SumOver(ps: seq<Payment>, s: set<PayerID>): int
  {
    if ps == [] then 0
    else SumOver(ps[..|ps| - 1], s) + (if ps[|ps| - 1].payerID in s then ps[|ps| - 1].amount.Int64() else 0)
  }

  /** The payment list with every payment of the given id removed
      (`payments.Delete`). */
  function WithoutPayment(ps: seq<Payment>, id: PaymentID): (r: seq<Payment>)
    ensures forall i :: 0 <= i < |r| ==> r[i].id != id && r[i] in ps
  {
    if ps == [] then []
    else
      var last := ps[|ps| - 1];
      WithoutPayment(ps[..|ps| - 1], id) + (if last.id == id then [] else [last])
  }

  predicate DistinctIDs(ps: seq<Payment>)
  {
    forall i, j :: 0 <= i < j < |ps| ==> ps[i].id != ps[j].id
  }

  function InstructionTotal(ins: seq<SettlementInstruction>): int
  {
    if ins == [] then 0 else InstructionTotal(ins[..|ins| - 1]) + ins[|ins| - 1].amount.Int64()
  }

  /** The payers named as senders. */
  function Senders(ins: seq<SettlementInstruction>): set<PayerID>
  {
    if ins == [] then {} else Senders(ins[..|ins| - 1]) + {ins[|ins| - 1].from}
  }

  /** What `Settle` reports for a list of payments: one instruction per
      distinct payer of the list, in any order, carrying what that payer paid,
      with the unknown (zero) payer as recipient. */
  ghost predicate ReportsEachPayer(ps: seq<Payment>, ins: seq<SettlementInstruction>)
  {
    (forall i :: 0 <= i < |ins| ==>
       ins[i].from in PayersIn(ps) && ins[i].to == PayerID("") &&
       ins[i].amount == Yen(PaidBy(ps, ins[i].from))) &&
    (forall i, j :: 0 <= i < j < |ins| ==> ins[i].from != ins[j].from) &&
    PayersIn(ps) <= Senders(ins)
  }

  // ---------------------------------------------------------------------------
  // The use case over its three stores.

  /** `PaymentUsecase` with its event, payer and payment repositories as
      in-memory tables. Events are a set of ids. Payers are keyed by payer id
      alone and remember the event they were first recorded under. Payments
      are kept in insertion order. `nextPaymentID` stands for the UUID source:
      each new payment gets an id no payment has had before. */
  class PaymentUsecase {
    var events: set<EventID>
    var payers: map<PayerID, EventID>
    var payments: seq<Payment>
    var nextPaymentID: nat

    /** Payment ids are unique and below the counter; no store holds an
        unknown id; every payment's event and payer are stored. */
    ghost predicate Valid()
      reads this
    {
      DistinctIDs(payments) &&
      (forall i :: 0 <= i < |payments| ==> payments[i].id.uuid < nextPaymentID) &&
      (forall e :: e in events ==> !e.IsUnknown()) &&
      (forall p :: p in payers ==> !p.IsUnknown()) &&
      (forall i :: 0 <= i < |payments| ==>
         payments[i].eventID in events && payments[i].payerID in payers)
    }

    /** `NewPayment`: empty stores. */
    constructor ()
      ensures Valid()
      ensures events == {} && payers == map[] && payments == []
    {
      events := {};
      payers := map[];
      payments := [];
      nextPaymentID := 0;
    }

    /** `payments.FindByEventID`. */
    function FindPaymentsByEventID(eventID: EventID): seq<Payment>
      reads this
    {
      PaymentsOfEvent(payments, eventID)
    }

    /** `Create`: records a payment of `amount` by `payerID` in `eventID`.
        The event is ensured first; an unknown payer then fails with the event
        already stored. An existing payer is kept as it is. */
    method Create(eventID: EventID, payerID: PayerID, amount: Yen)
      returns (payment: Option<Payment>, err: Option<Error>)
      requires Valid()
      modifies this
      ensures Valid()
      ensures payment.Some? <==> err.None?
      ensures eventID.IsUnknown() ==>
                err == Some(UnknownEventID) &&
                events == old(events) && payers == old(payers) &&
                payments == old(payments) && nextPaymentID == old(nextPaymentID)
      ensures !eventID.IsUnknown() && payerID.IsUnknown() ==>
                err == Some(UnknownPayerID) &&
                events == old(events) + {eventID} && payers == old(payers) &&
                payments == old(payments) && nextPaymentID == old(nextPaymentID)
      ensures !eventID.IsUnknown() && !payerID.IsUnknown() ==>
                err.None? &&
                payment.value == Payment(PaymentID(old(nextPaymentID)), eventID, payerID, amount) &&
                payment.value.id !in old(PaymentIDs()) &&
                events == old(events) + {eventID} &&
                payerID in payers &&
                payers == (if payerID in old(payers) then old(payers) else old(payers)[payerID := eventID]) &&
                payments == old(payments) + [payment.value]
    {
      if eventID.IsUnknown() {
        return None, Some(UnknownEventID);
      }
      events := events + {eventID};               // events.CreateIfNotExists

      if payerID.IsUnknown() {
        return None, Some(UnknownPayerID);
      }
      if payerID !in payers {                     // payers.CreateIfNotExists
        payers := payers[payerID := eventID];
      }

      var p := Payment(PaymentID(nextPaymentID), eventID, payerID, amount);
      payments := payments + [p];                 // payments.Create
      nextPaymentID := nextPaymentID + 1;
      return Some(p), None;
    }

    ghost function PaymentIDs(): set<PaymentID>
      reads this
    {
      set i | 0 <= i < |payments| :: payments[i].id
    }

    /** `Delete`: removes the payment with that id; every other payment, and
        the event and payer stores, stay as they were. */
    method Delete(paymentID: PaymentID)
      requires Valid()
      modifies this
      ensures Valid()
      ensures payments == WithoutPayment(old(payments), paymentID)
      ensures events == old(events) && payers == old(payers) && nextPaymentID == old(nextPaymentID)
    {
      WithoutPaymentKeepsDistinct(payments, paymentID);
      payments := WithoutPayment(payments, paymentID);
    }

    /** `Join`: enrols `payerID` in `eventID`. The event is ensured (a failure
        there is ignored by the source); a payer id already stored fails with
        already-exists and adds nothing. */
    method Join(eventID: EventID, payerID: PayerID)
      returns (payer: Option<Payer>, err: Option<Error>)
      requires Valid()
      modifies this
      ensures Valid()
      ensures payer.Some? <==> err.None?
      ensures payments == old(payments) && nextPaymentID == old(nextPaymentID)
      ensures eventID.IsUnknown() ==>
                err == Some(UnknownEventID) && events == old(events) && payers == old(payers)
      ensures !eventID.IsUnknown() ==> events == old(events) + {eventID}
      ensures !eventID.IsUnknown() && payerID.IsUnknown() ==>
                err == Some(UnknownPayerID) && payers == old(payers)
      ensures !eventID.IsUnknown() && !payerID.IsUnknown() && payerID in old(payers) ==>
                err == Some(AlreadyExists) && payers == old(payers)
      ensures !eventID.IsUnknown() && !payerID.IsUnknown() && payerID !in old(payers) ==>
                payer == Some(Payer(payerID, eventID)) &&
                payers == old(payers)[payerID := eventID]
    {
      if eventID.IsUnknown() {
        return None, Some(UnknownEventID);
      }
      events := events + {eventID};               // events.CreateIfNotExists

      if payerID.IsUnknown() {
        return None, Some(UnknownPayerID);
      }
      if payerID in payers {                      // payers.Create: primary key conflict
        return None, Some(AlreadyExists);
      }
      payers := payers[payerID := eventID];
      return Some(Payer(payerID, eventID)), None;
    }

    /** `Settle`: the grand total of the event's payments and, for each payer
        who paid in it, one instruction with that payer's own total. The
        instructions follow the iteration order of a map, which is left open. */
    method Settle(eventID: EventID) returns (settlement: Settlement)
      ensures settlement.total == Yen(SumAmounts(FindPaymentsByEventID(eventID)))
      ensures ReportsEachPayer(FindPaymentsByEventID(eventID), settlement.instructions)
      ensures InstructionTotal(settlement.instructions) == settlement.total.Int64()
      ensures |settlement.instructions| == |PayersIn(FindPaymentsByEventID(eventID))|
    {
      var ps := FindPaymentsByEventID(eventID);
      var total := 0;
      var payerMap: map<PayerID, int> := map[];

      for i := 0 to |ps|
        invariant total == SumAmounts(ps[..i])
        invariant PerPayerTotals(payerMap, ps[..i])
      {
        AddToTotals(ps, i, total, payerMap);
        var p := ps[i].payerID;
        total := total + ps[i].amount.Int64();
        payerMap := payerMap[p := (if p in payerMap then payerMap[p] else 0) + ps[i].amount.Int64()];
      }
      assert ps[..|ps|] == ps;

      var instructions: seq<SettlementInstruction> := [];
      var rest := payerMap.Keys;
      while rest != {}
        invariant rest <= payerMap.Keys
        invariant DrawnOnce(instructions, payerMap, rest)
        decreases rest
      {
        var from :| from in rest;
        DrawNext(instructions, payerMap, rest, from);
        instructions := instructions + [SettlementInstruction(from, PayerID(""), Yen(payerMap[from]))];
        rest := rest - {from};
      }
      ReportFromTotals(ps, payerMap, instructions);
      settlement := Settlement(Yen(total), instructions);
    }
  }

  // ---------------------------------------------------------------------------
  // Properties of the reference definitions.

  /** One more payment extends each reference definition by that payment. */
  lemma PrefixStep(ps: seq<Payment>, i: nat)
    requires i < |ps|
    ensures SumAmounts(ps[..i + 1]) == SumAmounts(ps[..i]) + ps[i].amount.Int64()
    ensures PayersIn(ps[..i + 1]) == PayersIn(ps[..i]) + {ps[i].payerID}
    ensures forall p :: PaidBy(ps[..i + 1], p) ==
                        PaidBy(ps[..i], p) + (if ps[i].payerID == p then ps[i].amount.Int64() else 0)
  {
    assert ps[..i + 1][..i] == ps[..i];
  }

  lemma SendersSnoc(ins: seq<SettlementInstruction>, x: SettlementInstruction)
    ensures Senders(ins + [x]) == Senders(ins) + {x.from}
  {
    assert (ins + [x])[..|ins|] == ins;
  }

  /** Someone who made no payment paid nothing. */
  lemma {:induction false} PaidByNonPayer(ps: seq<Payment>, p: PayerID)
    requires p !in PayersIn(ps)
    ensures PaidBy(ps, p) == 0
  {
    if ps != [] {
      PaidByNonPayer(ps[..|ps| - 1], p);
    }
  }

  lemma {:induction false} WithoutPaymentKeepsDistinct(ps: seq<Payment>, id: PaymentID)
    requires DistinctIDs(ps)
    ensures DistinctIDs(WithoutPayment(ps, id))
  {
    if ps != [] {
      var init := ps[..|ps| - 1];
      var last := ps[|ps| - 1];
      assert DistinctIDs(init);
      WithoutPaymentKeepsDistinct(init, id);
      var w := WithoutPayment(init, id);
      forall i | 0 <= i < |w|
        ensures w[i].id != last.id
      {
        var k :| 0 <= k < |init| && init[k] == w[i];
        assert ps[k] == init[k];
      }
    }
  }

  lemma {:induction false} SendersMembership(ins: seq<SettlementInstruction>)
    ensures forall i :: 0 <= i < |ins| ==> ins[i].from in Senders(ins)
    ensures forall p :: p in Senders(ins) ==> exists i :: 0 <= i < |ins| && ins[i].from == p
  {
    if ins != [] {
      var init := ins[..|ins| - 1];
      SendersMembership(init);
      forall p | p in Senders(ins)
        ensures exists i :: 0 <= i < |ins| && ins[i].from == p
      {
        if p in Senders(init) {
          var i :| 0 <= i < |init| && init[i].from == p;
          assert ins[i] == init[i];
        } else {
          assert ins[|ins| - 1].from == p;
        }
      }
    }
  }

  /** Distinct senders are as many as the instructions. */
  lemma {:induction false} DistinctSendersCount(ins: seq<SettlementInstruction>)
    requires forall i, j :: 0 <= i < j < |ins| ==> ins[i].from != ins[j].from
    ensures |Senders(ins)| == |ins|
  {
    if ins != [] {
      var init := ins[..|ins| - 1];
      var last := ins[|ins| - 1];
      DistinctSendersCount(init);
      SendersMembership(init);
      assert last.from !in Senders(init);
    }
  }

  /** Taking one payer out of a set of payers takes out exactly what that
      payer paid. */
  lemma {:induction false} SumOverSplit(ps: seq<Payment>, s: set<PayerID>, f: PayerID)
    requires f in s
    ensures SumOver(ps, s) == PaidBy(ps, f) + SumOver(ps, s - {f})
  {
    if ps != [] {
      SumOverSplit(ps[..|ps| - 1], s, f);
    }
  }

  lemma {:induction false} SumOverNobody(ps: seq<Payment>)
    ensures SumOver(ps, {}) == 0
  {
    if ps != [] {
      SumOverNobody(ps[..|ps| - 1]);
    }
  }

  /** Summing over a set that holds every payer is summing everything. */
  lemma {:induction false} SumOverAll(ps: seq<Payment>, s: set<PayerID>)
    requires PayersIn(ps) <= s
    ensures SumOver(ps, s) == SumAmounts(ps)
  {
    if ps != [] {
      SumOverAll(ps[..|ps| - 1], s);
    }
  }

  /** Instructions for distinct payers, each carrying what its payer paid,
      add up to what those payers paid together. */
  lemma {:induction false} InstructionTotalBySenders(ps: seq<Payment>, ins: seq<SettlementInstruction>)
    requires forall i :: 0 <= i < |ins| ==> ins[i].amount == Yen(PaidBy(ps, ins[i].from))
    requires forall i, j :: 0 <= i < j < |ins| ==> ins[i].from != ins[j].from
    ensures InstructionTotal(ins) == SumOver(ps, Senders(ins))
  {
    if ins == [] {
      SumOverNobody(ps);
    } else {
      var init := ins[..|ins| - 1];
      var last := ins[|ins| - 1];
      assert forall i :: 0 <= i < |init| ==> init[i] == ins[i];
      InstructionTotalBySenders(ps, init);
      SendersMembership(init);
      assert last.from !in Senders(init);
      assert Senders(ins) - {last.from} == Senders(init);
      SumOverSplit(ps, Senders(ins), last.from);
      calc {
        InstructionTotal(ins);
        InstructionTotal(init) + last.amount.Int64();
        SumOver(ps, Senders(init)) + PaidBy(ps, last.from);
        SumOver(ps, Senders(ins));
      }
    }
  }

  /** `m` maps each payer of `qs` to what that payer paid: the `payerMap` of
      `Settle` after the payments `qs`. */
  ghost predicate PerPayerTotals(m: map<PayerID, int>, qs: seq<Payment>)
  {
    m.Keys == PayersIn(qs) && forall p :: p in m ==> m[p] == PaidBy(qs, p)
  }

  /** One step of the summing loop of `Settle`. */
  lemma AddToTotals(ps: seq<Payment>, i: nat, total: int, m: map<PayerID, int>)
    requires i < |ps| && total == SumAmounts(ps[..i]) && PerPayerTotals(m, ps[..i])
    ensures var p := ps[i].payerID;
            total + ps[i].amount.Int64() == SumAmounts(ps[..i + 1]) &&
            PerPayerTotals(m[p := (if p in m then m[p] else 0) + ps[i].amount.Int64()], ps[..i + 1])
  {
    PrefixStep(ps, i);
    if ps[i].payerID !in m {
      PaidByNonPayer(ps[..i], ps[i].payerID);
    }
  }

  /** The instructions drawn so far from the per-payer map `m`, with `rest`
      the keys not drawn yet: one per drawn key, none twice. */
  ghost predicate DrawnOnce(ins: seq<SettlementInstruction>, m: map<PayerID, int>, rest: set<PayerID>)
  {
    (forall i :: 0 <= i < |ins| ==>
       ins[i].from in m && ins[i].from !in rest && ins[i].to == PayerID("") &&
       ins[i].amount == Yen(m[ins[i].from])) &&
    (forall i, j :: 0 <= i < j < |ins| ==> ins[i].from != ins[j].from) &&
    m.Keys - rest == Senders(ins)
  }

  /** One step of the instruction loop of `Settle`. */
  lemma DrawNext(ins: seq<SettlementInstruction>, m: map<PayerID, int>, rest: set<PayerID>, from: PayerID)
    requires rest <= m.Keys && DrawnOnce(ins, m, rest) && from in rest
    ensures DrawnOnce(ins + [SettlementInstruction(from, PayerID(""), Yen(m[from]))], m, rest - {from})
  {
    SendersSnoc(ins, SettlementInstruction(from, PayerID(""), Yen(m[from])));
  }

  /** Instructions drawn one per key from the per-payer totals of `ps` form
      the report of `ps`. */
  lemma ReportFromTotals(ps: seq<Payment>, totals: map<PayerID, int>, ins: seq<SettlementInstruction>)
    requires PerPayerTotals(totals, ps) && DrawnOnce(ins, totals, {})
    ensures ReportsEachPayer(ps, ins)
    ensures InstructionTotal(ins) == SumAmounts(ps)
    ensures |ins| == |PayersIn(ps)|
  {
    InstructionsSumToTotal(ps, ins);
    ReportedPayers(ps, ins);
  }

  /** The instruction amounts of a settlement add up to its total. */
  lemma InstructionsSumToTotal(ps: seq<Payment>, ins: seq<SettlementInstruction>)
    requires ReportsEachPayer(ps, ins)
    ensures InstructionTotal(ins) == SumAmounts(ps)
  {
    InstructionTotalBySenders(ps, ins);
    SumOverAll(ps, Senders(ins));
  }

  /** Exactly the payers who made a payment in the event get an instruction,
      one each: a payer whose payments are all zero is listed, a payer who
      only joined is not. */
  lemma ReportedPayers(ps: seq<Payment>, ins: seq<SettlementInstruction>)
    requires ReportsEachPayer(ps, ins)
    ensures Senders(ins) == PayersIn(ps)
    ensures |ins| == |PayersIn(ps)|
  {
    SendersMembership(ins);
    DistinctSendersCount(ins);
  }

  /** With no payments, the total is zero and there is no instruction. */
  lemma NothingToSettle(ins: seq<SettlementInstruction>)
    requires ReportsEachPayer([], ins)
    ensures SumAmounts([]) == 0 && ins == []
  {
    ReportedPayers([], ins);
  }

  /** A recorded payment shows up in a later settlement of its event: the
      total and its payer's own total grow by its amount, and its payer is
      listed. Other events are not affected. */
  lemma AppendCounted(ps: seq<Payment>, p: Payment, e: EventID)
    ensures var before := PaymentsOfEvent(ps, e);
            var after := PaymentsOfEvent(ps + [p], e);
            if p.eventID == e then
              SumAmounts(after) == SumAmounts(before) + p.amount.Int64() &&
              PaidBy(after, p.payerID) == PaidBy(before, p.payerID) + p.amount.Int64() &&
              PayersIn(after) == PayersIn(before) + {p.payerID}
            else after == before
  {
    assert (ps + [p])[..|ps|] == ps;
    var before := PaymentsOfEvent(ps, e);
    assert (before + [p])[..|before|] == before;
  }

  /** Payments without the id are left alone by `WithoutPayment`. */
  lemma {:induction false} WithoutAbsentPayment(ps: seq<Payment>, id: PaymentID)
    requires forall i :: 0 <= i < |ps| ==> ps[i].id != id
    ensures WithoutPayment(ps, id) == ps
  {
    if ps != [] {
      WithoutAbsentPayment(ps[..|ps| - 1], id);
    }
  }

  /** Deleting a stored payment removes its amount from a later settlement of
      its event, and from nothing else. */
  lemma {:induction false} DeleteUncounted(ps: seq<Payment>, k: nat, e: EventID)
    requires DistinctIDs(ps) && k < |ps|
    ensures SumAmounts(PaymentsOfEvent(WithoutPayment(ps, ps[k].id), e)) ==
            SumAmounts(PaymentsOfEvent(ps, e)) - (if ps[k].eventID == e then ps[k].amount.Int64() else 0)
  {
    var init := ps[..|ps| - 1];
    var last := ps[|ps| - 1];
    var id := ps[k].id;
    assert ps == init + [last];
    if k == |ps| - 1 {
      assert forall i :: 0 <= i < |init| ==> init[i].id == ps[i].id != id;
      WithoutAbsentPayment(init, id);
      assert WithoutPayment(ps, id) == init;
      AppendCounted(init, last, e);
    } else {
      assert init[k] == ps[k] && last.id != id;
      assert DistinctIDs(init);
      DeleteUncounted(init, k, e);
      var w := WithoutPayment(init, id);
      assert WithoutPayment(ps, id) == w + [last];
      AppendCounted(w, last, e);
      AppendCounted(init, last, e);
    }
  }

  /** `Delete` of a stored payment takes out that one payment and keeps the
      others in their order. */
  lemma {:induction false} DeleteExactlyOne(ps: seq<Payment>, k: nat)
    requires DistinctIDs(ps) && k < |ps|
    ensures WithoutPayment(ps, ps[k].id) == ps[..k] + ps[k + 1..]
  {
    var init := ps[..|ps| - 1];
    var last := ps[|ps| - 1];
    var id := ps[k].id;
    if k == |ps| - 1 {
      assert forall i :: 0 <= i < |init| ==> init[i].id == ps[i].id != id;
      WithoutAbsentPayment(init, id);
      assert ps[..k] + ps[k + 1..] == init;
    } else {
      assert init[k] == ps[k] && last.id != id;
      assert DistinctIDs(init);
      DeleteExactlyOne(init, k);
      assert init[..k] == ps[..k] && init[k + 1..] + [last] == ps[k + 1..];
    }
  }
}

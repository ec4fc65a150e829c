/** Debts (`useDebts`): the list the hook keeps once a backend call has
    succeeded, the payment rule, and the summary figures. The backend is
    assumed to succeed and to read back the row it was given, with the id
    and timestamps it chose. */
module Debts {
  import opened Common

  datatype Debt = Debt(
    id: string,
    name: string,
    totalAmount: int,
    paidAmount: int,
    creditor: string,
    reason: Option<string>,
    dueDate: Option<string>,
    createdAt: string,
    updatedAt: string)

  /** What the form submits: a debt without id and timestamps. */
  datatype DebtInput = DebtInput(
    name: string,
    totalAmount: int,
    paidAmount: int,
    creditor: string,
    reason: Option<string>,
    dueDate: Option<string>)

  /** `Partial<…>` of the editable fields: `Some` for a field the update
      carries. */
  datatype DebtUpdate = DebtUpdate(
    name: Option<string>,
    totalAmount: Option<int>,
    paidAmount: Option<int>,
    creditor: Option<string>,
    reason: Option<string>,
    dueDate: Option<string>)

  /** The debt `addDebt` puts in front of the list: the input as stored,
      with an empty reason or due date stored as `null` and read back as
      missing. */
  function NewDebt(input: DebtInput, id: string, createdAt: string, updatedAt: string): (d: Debt)
    ensures d.id == id && d.createdAt == createdAt && d.updatedAt == updatedAt
    ensures d.name == input.name && d.creditor == input.creditor
    ensures d.totalAmount == input.totalAmount && d.paidAmount == input.paidAmount
    ensures d.reason == OrMissing(input.reason) && d.dueDate == OrMissing(input.dueDate)
  {
    Debt(id, input.name, input.totalAmount, input.paidAmount, input.creditor,
         OrMissing(OrMissing(input.reason)), OrMissing(OrMissing(input.dueDate)), createdAt, updatedAt)
  }

  /** `{ ...d, ...updates }`: the fields the update carries replace the
      debt's, the others and the id and timestamps stay. */
  function ApplyUpdate(d: Debt, u: DebtUpdate): (r: Debt)
    ensures r.id == d.id && r.createdAt == d.createdAt && r.updatedAt == d.updatedAt
    ensures r.name == GetOr(u.name, d.name) && r.creditor == GetOr(u.creditor, d.creditor)
    ensures r.totalAmount == GetOr(u.totalAmount, d.totalAmount)
    ensures r.paidAmount == GetOr(u.paidAmount, d.paidAmount)
    ensures r.reason == (if u.reason.Some? then u.reason else d.reason)
    ensures r.dueDate == (if u.dueDate.Some? then u.dueDate else d.dueDate)
  {
    d.(name := GetOr(u.name, d.name),
       totalAmount := GetOr(u.totalAmount, d.totalAmount),
       paidAmount := GetOr(u.paidAmount, d.paidAmount),
       creditor := GetOr(u.creditor, d.creditor),
       reason := if u.reason.Some? then u.reason else d.reason,
       dueDate := if u.dueDate.Some? then u.dueDate else d.dueDate)
  }

  const NoChange := DebtUpdate(None, None, None, None, None, None)

  /** An update that carries no field changes nothing; applying an update
      twice is applying it once. */
  lemma ApplyUpdateLaws(d: Debt, u: DebtUpdate)
    ensures ApplyUpdate(d, NoChange) == d
    ensures ApplyUpdate(ApplyUpdate(d, u), u) == ApplyUpdate(d, u)
  {
  }

  /** A value in the record sent to the backend. */
  datatype PatchValue = Text(text: string) | Number(n: int) | Null

  function TextOrNull(s: string): PatchValue
  {
    if s == "" then Null else Text(s)
  }

  /** The `updateData` record: one entry per field the update carries, under
      the column's name; an empty reason or due date is sent as `null`. */
  method UpdateData(u: DebtUpdate) returns (patch: map<string, PatchValue>)
    ensures "name" in patch <==> u.name.Some?
    ensures "total_amount" in patch <==> u.totalAmount.Some?
    ensures "paid_amount" in patch <==> u.paidAmount.Some?
    ensures "creditor" in patch <==> u.creditor.Some?
    ensures "reason" in patch <==> u.reason.Some?
    ensures "due_date" in patch <==> u.dueDate.Some?
    ensures patch.Keys <= {"name", "total_amount", "paid_amount", "creditor", "reason", "due_date"}
    ensures u.name.Some? ==> patch["name"] == Text(u.name.value)
    ensures u.totalAmount.Some? ==> patch["total_amount"] == Number(u.totalAmount.value)
    ensures u.paidAmount.Some? ==> patch["paid_amount"] == Number(u.paidAmount.value)
    ensures u.creditor.Some? ==> patch["creditor"] == Text(u.creditor.value)
    ensures u.reason.Some? ==> patch["reason"] == TextOrNull(u.reason.value)
    ensures u.dueDate.Some? ==> patch["due_date"] == TextOrNull(u.dueDate.value)
  {
    patch := map[];
    if u.name.Some? {
      patch := patch["name" := Text(u.name.value)];
    }
    if u.totalAmount.Some? {
      patch := patch["total_amount" := Number(u.totalAmount.value)];
    }
    if u.paidAmount.Some? {
      patch := patch["paid_amount" := Number(u.paidAmount.value)];
    }
    if u.creditor.Some? {
      patch := patch["creditor" := Text(u.creditor.value)];
    }
    if u.reason.Some? {
      patch := patch["reason" := TextOrNull(u.reason.value)];
    }
    if u.dueDate.Some? {
      patch := patch["due_date" := TextOrNull(u.dueDate.value)];
    }
  }

  function HasId(id: string): Debt -> bool
  {
    (d: Debt) => d.id == id
  }

  /** `updateDebt(id, updates)` on the list. */
  function UpdateById(debts: seq<Debt>, id: string, u: DebtUpdate): seq<Debt>
  {
    MapWhere(debts, HasId(id), (d: Debt) => ApplyUpdate(d, u))
  }

  /** `deleteDebt(id)` on the list. */
  function DeleteById(debts: seq<Debt>, id: string): seq<Debt>
  {
    Filter(debts, (d: Debt) => d.id != id)
  }

  /** Only the debts with the id change, and in them only the fields the
      update carries. */
  lemma UpdateByIdChangesOnlyTarget(debts: seq<Debt>, id: string, u: DebtUpdate)
    ensures var r := UpdateById(debts, id, u);
      && |r| == |debts|
      && (forall i :: 0 <= i < |debts| && debts[i].id != id ==> r[i] == debts[i])
      && (forall i :: 0 <= i < |debts| && debts[i].id == id ==> r[i] == ApplyUpdate(debts[i], u))
  {
  }

  /** Deleting removes exactly the debts with the id and keeps every other
      debt, as often as it occurred. */
  lemma DeleteByIdRemovesExactly(debts: seq<Debt>, id: string)
    ensures var r := DeleteById(debts, id);
      && (forall d: Debt :: d in r ==> d.id != id)
      && (forall d: Debt :: d.id != id ==> multiset(r)[d] == multiset(debts)[d])
  {
    FilterMultiset(debts, (d: Debt) => d.id != id);
  }

  /** `Math.min(paidAmount + amount, totalAmount)` */
  function PaidAfter(d: Debt, amount: int): (p: int)
    ensures p <= d.totalAmount
    ensures p == d.paidAmount + amount || p == d.totalAmount
    ensures d.paidAmount + amount <= d.totalAmount ==> p == d.paidAmount + amount
  {
    if d.paidAmount + amount < d.totalAmount then d.paidAmount + amount else d.totalAmount
  }

  datatype DebtStats = DebtStats(totalDebt: int, totalPaid: int, totalRemaining: int, progress: real)

  /** The `stats` the hook returns. */
  function Stats(debts: seq<Debt>): (s: DebtStats)
    ensures s.totalRemaining == s.totalDebt - s.totalPaid
    ensures s.totalDebt <= 0 ==> s.progress == 0.0
    ensures s.totalDebt > 0 ==> s.progress * (s.totalDebt as real) == (s.totalPaid as real) * 100.0
  {
    var totalDebt := SumOf(debts, (d: Debt) => d.totalAmount);
    var totalPaid := SumOf(debts, (d: Debt) => d.paidAmount);
    DebtStats(totalDebt, totalPaid, totalDebt - totalPaid,
              if totalDebt > 0 then (totalPaid as real / totalDebt as real) * 100.0 else 0.0)
  }

  /** When no debt is overpaid or has a negative payment, progress is a
      percentage and nothing remains negative. */
  lemma StatsBounded(debts: seq<Debt>)
    requires forall i :: 0 <= i < |debts| ==> 0 <= debts[i].paidAmount <= debts[i].totalAmount
    ensures var s := Stats(debts); 0.0 <= s.progress <= 100.0 && s.totalRemaining >= 0
  {
    SumOfMonotonic(debts, (d: Debt) => d.paidAmount, (d: Debt) => d.totalAmount);
    SumOfNonNegative(debts, (d: Debt) => d.paidAmount);
    var s := Stats(debts);
    if s.totalDebt > 0 {
      ProgressBounded(s.totalPaid, s.totalDebt);
    }
  }

  lemma ProgressBounded(paid: int, total: int)
    requires 0 <= paid <= total && total > 0
    ensures 0.0 <= (paid as real / total as real) * 100.0 <= 100.0
  {
    assert paid as real / total as real <= 1.0;
  }

  /** The debts of the signed-in user as the hook holds them. */
  class DebtBook {
    var user: Option<string>
    var debts: seq<Debt>

    constructor (user: Option<string>, fetched: seq<Debt>)
      ensures this.user == user
      ensures debts == if user.None? then [] else fetched
    {
      this.user := user;
      debts := if user.None? then [] else fetched;
    }

    /** `addDebt`: the new debt goes in front. */
    method AddDebt(input: DebtInput, id: string, createdAt: string, updatedAt: string)
      modifies this
      ensures user == old(user)
      ensures debts == if user.None? then old(debts) else [NewDebt(input, id, createdAt, updatedAt)] + old(debts)
    {
      if user.None? {
        return;
      }
      debts := [NewDebt(input, id, createdAt, updatedAt)] + debts;
    }

    method UpdateDebt(id: string, u: DebtUpdate)
      modifies this
      ensures user == old(user)
      ensures debts == if user.None? then old(debts) else UpdateById(old(debts), id, u)
    {
      if user.None? {
        return;
      }
      debts := UpdateById(debts, id, u);
    }

    method DeleteDebt(id: string)
      modifies this
      ensures user == old(user)
      ensures debts == if user.None? then old(debts) else DeleteById(old(debts), id)
    {
      if user.None? {
        return;
      }
      debts := DeleteById(debts, id);
    }

    /** `addPayment(id, amount)`: the first debt with the id gives the new
      paid amount, capped at its total, which `updateDebt` then writes;
      `paidOff` is the celebration check, which runs even when
      `updateDebt` did nothing for want of a user. */
    method AddPayment(id: string, amount: int) returns (paidOff: bool)
      modifies this
      ensures user == old(user)
      ensures var k := FindIndex(old(debts), HasId(id));
        && (k == -1 ==> debts == old(debts) && !paidOff)
        && (k >= 0 ==>
              var paid := PaidAfter(old(debts)[k], amount);
              debts == (if user.None? then old(debts)
                        else UpdateById(old(debts), id, NoChange.(paidAmount := Some(paid))))
              && (paidOff <==> paid >= old(debts)[k].totalAmount))
    {
      var k := FindIndex(debts, HasId(id));
      if k == -1 {
        return false;
      }
      var debt := debts[k];
      var paid := PaidAfter(debt, amount);
      UpdateDebt(id, NoChange.(paidAmount := Some(paid)));
      paidOff := paid >= debt.totalAmount;
    }
  }

  /** After a payment every debt with the id holds the capped amount, which
      never exceeds that debt's total when the debts sharing the id agree on
      it; the other debts are untouched. */
  lemma PaymentCapped(debts: seq<Debt>, id: string, amount: int, k: nat)
    requires k < |debts| && debts[k].id == id
    requires forall i :: 0 <= i < |debts| && debts[i].id == id ==> debts[i].totalAmount == debts[k].totalAmount
    ensures var r := UpdateById(debts, id, NoChange.(paidAmount := Some(PaidAfter(debts[k], amount))));
      forall i :: 0 <= i < |r| ==>
        if debts[i].id == id then r[i].paidAmount <= r[i].totalAmount && r[i].paidAmount == PaidAfter(debts[k], amount)
        else r[i] == debts[i]
  {
  }
}

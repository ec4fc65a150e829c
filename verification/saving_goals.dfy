/** Saving goals (`useSavingGoals`): the list the hook keeps once a backend
    call has succeeded, the deposit and withdrawal rule, and the milestone a
    new amount reaches. */
module SavingGoals {
  import opened Common

  datatype SavingGoal = SavingGoal(
    id: string,
    name: string,
    targetAmount: int,
    currentAmount: int,
    color: string,
    icon: string,
    deadline: Option<string>,
    createdAt: string,
    updatedAt: string)

  /** What the form submits: no id, timestamps or current amount. */
  datatype GoalInput = GoalInput(name: string, targetAmount: int, color: string, icon: string, deadline: Option<string>)

  datatype Movement = Deposit | Withdraw

  /** The goal `addGoal` puts in front of the list: it starts at zero, and an
      empty deadline is stored as `null` and read back as missing. */
  function NewGoal(input: GoalInput, id: string, createdAt: string, updatedAt: string): (g: SavingGoal)
    ensures g.id == id && g.createdAt == createdAt && g.updatedAt == updatedAt
    ensures g.currentAmount == 0 && g.targetAmount == input.targetAmount
    ensures g.name == input.name && g.color == input.color && g.icon == input.icon
    ensures g.deadline.Some? <==> input.deadline.Some? && input.deadline.value != ""
    ensures g.deadline.Some? ==> g.deadline == input.deadline
  {
    var stored := if input.deadline.Some? && input.deadline.value != "" then input.deadline else None;
    SavingGoal(id, input.name, input.targetAmount, 0, input.color, input.icon,
               if stored.Some? && stored.value != "" then stored else None, createdAt, updatedAt)
  }

  /** A deposit adds the amount; a withdrawal subtracts it but never goes
      below zero. */
  function NewAmount(current: int, amount: int, movement: Movement): (r: int)
    ensures movement == Deposit ==> r == current + amount
    ensures movement == Withdraw ==> r >= 0 && r >= current - amount
    ensures movement == Withdraw ==> (r == 0 <==> current <= amount)
    ensures movement == Withdraw && current > amount ==> r == current - amount
  {
    match movement
    case Deposit => current + amount
    case Withdraw => if 0 < current - amount then current - amount else 0
  }

  /** Withdrawing what was just deposited restores a non-negative amount. */
  lemma DepositThenWithdraw(current: int, amount: int)
    requires current >= 0
    ensures NewAmount(NewAmount(current, amount, Deposit), amount, Withdraw) == current
  {
  }

  /** The toast after a movement. */
  datatype Milestone = NearGoal | GoalReached | Recorded

  /** `progress = newAmount / targetAmount * 100`, compared with 90 and 100.
      A zero target gives an infinite progress when the new amount is
      positive and NaN (which no comparison accepts) when it is zero. */
  function MilestoneOf(newAmount: int, target: int): (m: Milestone)
    ensures target > 0 ==> (m == GoalReached <==> newAmount >= target)
    ensures target > 0 ==> (m == NearGoal <==> 10 * newAmount >= 9 * target && newAmount < target)
    ensures target == 0 ==> (m == GoalReached <==> newAmount > 0)
  {
    if target == 0 then
      if newAmount > 0 then GoalReached else Recorded
    else
      var progress := (newAmount as real / target as real) * 100.0;
      ProgressScale(newAmount, target);
      if progress >= 90.0 && progress < 100.0 then NearGoal
      else if progress >= 100.0 then GoalReached
      else Recorded
  }

  lemma ProgressScale(amount: int, target: int)
    requires target != 0
    ensures var p := (amount as real / target as real) * 100.0;
      target > 0 ==> (p >= 100.0 <==> amount >= target) && (p >= 90.0 <==> 10 * amount >= 9 * target)
  {
    if target > 0 {
      var q := amount as real / target as real;
      assert (q * 100.0 >= 100.0 <==> q >= 1.0) && (q * 100.0 >= 90.0 <==> q >= 0.9);
      AtLeastShare(amount as real, target as real, 1.0);
      AtLeastShare(amount as real, target as real, 0.9);
    }
  }

  function HasId(id: string): SavingGoal -> bool
  {
    (g: SavingGoal) => g.id == id
  }

  /** The list after `updateGoalAmount`: every goal with the id gets the new
      amount. */
  function SetAmount(goals: seq<SavingGoal>, id: string, amount: int): seq<SavingGoal>
  {
    MapWhere(goals, HasId(id), (g: SavingGoal) => g.(currentAmount := amount))
  }

  /** Only the goals with the id change, and in them only the amount. */
  lemma SetAmountChangesOnlyTarget(goals: seq<SavingGoal>, id: string, amount: int)
    ensures var r := SetAmount(goals, id, amount);
      && |r| == |goals|
      && (forall i :: 0 <= i < |goals| && goals[i].id != id ==> r[i] == goals[i])
      && (forall i :: 0 <= i < |goals| && goals[i].id == id ==> r[i] == goals[i].(currentAmount := amount))
  {
  }

  /** `deleteGoal(id)` on the list. */
  function DeleteById(goals: seq<SavingGoal>, id: string): seq<SavingGoal>
  {
    Filter(goals, (g: SavingGoal) => g.id != id)
  }

  /** Deleting removes exactly the goals with the id and keeps every other
      goal, as often as it occurred. */
  lemma DeleteByIdRemovesExactly(goals: seq<SavingGoal>, id: string)
    ensures var r := DeleteById(goals, id);
      && (forall g: SavingGoal :: g in r ==> g.id != id)
      && (forall g: SavingGoal :: g.id != id ==> multiset(r)[g] == multiset(goals)[g])
  {
    FilterMultiset(goals, (g: SavingGoal) => g.id != id);
  }

  /** The goals of the signed-in user as the hook holds them. */
  class GoalBook {
    var user: Option<string>
    var goals: seq<SavingGoal>

    constructor (user: Option<string>, fetched: seq<SavingGoal>)
      ensures this.user == user
      ensures goals == if user.None? then [] else fetched
    {
      this.user := user;
      goals := if user.None? then [] else fetched;
    }

    /** `addGoal`: the new goal goes in front. */
    method AddGoal(input: GoalInput, id: string, createdAt: string, updatedAt: string)
      modifies this
      ensures user == old(user)
      ensures goals == if user.None? then old(goals) else [NewGoal(input, id, createdAt, updatedAt)] + old(goals)
    {
      if user.None? {
        return;
      }
      goals := [NewGoal(input, id, createdAt, updatedAt)] + goals;
    }

    /** `updateGoalAmount`: the first goal with the id gives the new amount,
      which every goal with the id then takes; `shown` is the toast, `None`
      when nothing happened. */
    method UpdateGoalAmount(id: string, amount: int, movement: Movement) returns (shown: Option<Milestone>)
      modifies this
      ensures user == old(user)
      ensures var k := FindIndex(old(goals), HasId(id));
        && (user.None? || k == -1 ==> goals == old(goals) && shown == None)
        && (user.Some? && k >= 0 ==>
              var goal := old(goals)[k];
              var newAmount := NewAmount(goal.currentAmount, amount, movement);
              goals == SetAmount(old(goals), id, newAmount)
              && shown == Some(MilestoneOf(newAmount, goal.targetAmount)))
    {
      if user.None? {
        return None;
      }
      var k := FindIndex(goals, HasId(id));
      if k == -1 {
        return None;
      }
      var goal := goals[k];
      var newAmount := NewAmount(goal.currentAmount, amount, movement);
      goals := SetAmount(goals, id, newAmount);
      shown := Some(MilestoneOf(newAmount, goal.targetAmount));
    }

    method DeleteGoal(id: string)
      modifies this
      ensures user == old(user)
      ensures goals == if user.None? then old(goals) else DeleteById(old(goals), id)
    {
      if user.None? {
        return;
      }
      goals := DeleteById(goals, id);
    }
  }
}

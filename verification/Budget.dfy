// segmentmerge/budget.go: the byte budget shared by the load workers.
module Budgets {
  import opened Prelude

  // The fields ByteBudget guards with its lock. Closing and replacing the
  // `changed` channel is the start of a new generation.
  datatype Budget = Budget(limit: int, reserved: int, resident: int, peak: int, generation: nat)

  // ---------- The critical sections, on values ----------

  predicate Fits(b: Budget, weight: int) {
    b.reserved <= b.limit - weight
  }

  function Reserve(b: Budget, weight: int): Budget {
    b.(reserved := b.reserved + weight)
  }

  function Mark(b: Budget, actual: int): Budget {
    var resident := b.resident + actual;
    b.(resident := resident, peak := if resident > b.peak then resident else b.peak)
  }

  function Free(b: Budget, weight: int, resident: int): Budget {
    b.(reserved := b.reserved - weight, resident := b.resident - resident, generation := b.generation + 1)
  }

  // NewByteBudget raises a limit below one to one.
  function NewBudget(limit: int): Budget {
    Budget(if limit < 1 then 1 else limit, 0, 0, 0, 0)
  }

  // ---------- Sums over the outstanding leases ----------

  ghost function Total<K>(m: map<K, int>): int
    decreases |m|
  {
    if m == map[] then 0
    else
      var k :| k in m;
      m[k] + Total(m - {k})
  }

  lemma {:induction false} TotalRemove<K>(m: map<K, int>, k: K)
    requires k in m
    ensures Total(m) == m[k] + Total(m - {k})
    decreases |m|
  {
    var j :| j in m && Total(m) == m[j] + Total(m - {j});
    if j == k {
    } else {
      TotalRemove(m - {j}, k);
      TotalRemove(m - {k}, j);
      assert m - {j} - {k} == m - {k} - {j};
    }
  }

  lemma TotalInsert<K>(m: map<K, int>, k: K, x: int)
    requires k !in m
    ensures Total(m[k := x]) == Total(m) + x
  {
    TotalRemove(m[k := x], k);
    assert m[k := x] - {k} == m;
  }

  lemma TotalUpdate<K>(m: map<K, int>, k: K, x: int)
    requires k in m
    ensures Total(m[k := x]) == Total(m) - m[k] + x
  {
    TotalRemove(m, k);
    TotalRemove(m[k := x], k);
    assert m[k := x] - {k} == m - {k};
  }

  lemma {:induction false} TotalOrdered<K>(low: map<K, int>, high: map<K, int>)
    requires low.Keys == high.Keys
    requires forall k :: k in low ==> 0 <= low[k] <= high[k]
    ensures 0 <= Total(low) <= Total(high)
    decreases |low|
  {
    if low != map[] {
      var k :| k in low;
      TotalRemove(low, k);
      TotalRemove(high, k);
      TotalOrdered(low - {k}, high - {k});
    } else {
      assert high == map[];
    }
  }

  // ---------- ByteBudget ----------

  datatype Attempt =
    | Exceeded
    | Granted(lease: BudgetLease)
    | MustWait(generation: nat)

  class ByteBudget {
    const limit: int64
    var reserved: int64
    var resident: int64
    var peak: int64
    var generation: nat
    // The leases granted and not yet released, with what each one accounts for.
    ghost var weights: map<BudgetLease, int>
    ghost var marks: map<BudgetLease, int>

    function State(): Budget
      reads this
    {
      Budget(limit as int, reserved as int, resident as int, peak as int, generation)
    }

    ghost predicate Outstanding(lease: BudgetLease)
      reads this, lease
    {
      && lease.budget == this && !lease.released
      && lease in weights && weights[lease] == lease.weight as int
      && lease in marks && marks[lease] == lease.resident as int
      && lease.weight >= 1 && 0 <= lease.resident <= lease.weight
    }

    // The two counters are exactly the sums over the outstanding leases.
    ghost predicate Balanced()
      reads this, weights.Keys
    {
      && weights.Keys == marks.Keys
      && (forall lease :: lease in weights ==> Outstanding(lease))
      && reserved as int == Total(weights) && resident as int == Total(marks)
    }

    ghost predicate Valid()
      reads this, weights.Keys
    {
      Balanced() && reserved <= limit && resident <= peak <= limit && limit >= 1
    }

    lemma Bounds()
      requires Balanced()
      ensures 0 <= resident <= reserved
    {
      TotalOrdered(marks, weights);
    }

    constructor (requested: int64)
      ensures Valid() && fresh(this)
      ensures weights == map[] && State() == NewBudget(requested as int)
    {
      limit := if requested < 1 then 1 else requested;
      reserved, resident, peak, generation := 0, 0, 0, 0;
      weights, marks := map[], map[];
    }

    lemma BalancedFrom()
      requires weights.Keys == marks.Keys && forall lease :: lease in weights ==> Outstanding(lease)
      requires reserved as int == Total(weights)
      ensures Balanced() <==> resident as int == Total(marks)
    {
    }

    lemma AllOutstanding()
      requires Balanced()
      ensures weights.Keys == marks.Keys && forall lease :: lease in weights ==> Outstanding(lease)
      ensures reserved as int == Total(weights) && resident as int == Total(marks)
    {
    }

    // The sum of the marks once this lease is marked with `actual`.
    lemma Remarked(lease: BudgetLease, actual: int64)
      requires Valid() && lease in weights && 0 <= actual <= lease.weight
      ensures weights.Keys == marks.Keys && Outstanding(lease)
      ensures Total(marks[lease := actual as int]) == resident as int - lease.resident as int + actual as int
      ensures Total(marks[lease := actual as int]) <= reserved as int
    {
      assert Outstanding(lease);
      TotalUpdate(marks, lease, actual as int);
      TotalOrdered(marks[lease := actual as int], weights);
    }

    // budget.resident += actual, and the peak after it
    method CountResident(actual: int64, ghost marked: map<BudgetLease, int>)
      modifies this
      ensures weights == old(weights) && marks == marked && reserved == old(reserved) && generation == old(generation)
      ensures resident == Wrap(old(resident) as int + actual as int)
      ensures peak == if resident > old(peak) then resident else old(peak)
    {
      resident := Wrap(resident as int + actual as int);
      marks := marked;
      if resident > peak {
        peak := resident;
      }
    }

    // One pass of Acquire's loop under the lock. A failed check hands back the
    // generation captured in the same critical section.
    method TryAcquire(weight: int64) returns (r: Attempt)
      requires Valid()
      modifies this
      ensures Valid()
      ensures r.Exceeded? <==> weight < 1 || weight > limit
      ensures r.Granted? <==> 1 <= weight <= limit && Fits(old(State()), weight as int)
      ensures r.Granted? ==>
        && fresh(r.lease) && r.lease.weight == weight && r.lease.resident == 0
        && State() == Reserve(old(State()), weight as int)
        && weights == old(weights)[r.lease := weight as int] && marks == old(marks)[r.lease := 0]
      ensures r.MustWait? ==> r.generation == generation && !Fits(State(), weight as int)
      ensures !r.Granted? ==> State() == old(State()) && weights == old(weights) && marks == old(marks)
    {
      Bounds();
      if weight < 1 || weight > limit {
        return Exceeded;
      }
      if reserved <= limit - weight {
        var lease := new BudgetLease(this, weight);
        TotalInsert(weights, lease, weight as int);
        TotalInsert(marks, lease, 0);
        reserved := reserved + weight;
        weights, marks := weights[lease := weight as int], marks[lease := 0];
        return Granted(lease);
      }
      return MustWait(generation);
    }
  }

  class BudgetLease {
    const budget: ByteBudget
    const weight: int64
    var resident: int64
    var released: bool

    constructor (budget: ByteBudget, weight: int64)
      ensures this.budget == budget && this.weight == weight && resident == 0 && !released
    {
      this.budget := budget;
      this.weight := weight;
      resident, released := 0, false;
    }

    // The first marking keeps the books. The code does not refuse a second one,
    // which counts its bytes again without taking back the first.
    method MarkResident(actual: int64) returns (ok: bool)
      requires budget.Valid()
      modifies this, budget
      ensures ok <==> 0 <= actual <= weight
      ensures budget.weights == old(budget.weights) && released == old(released)
      ensures budget.reserved == old(budget.reserved) && budget.generation == old(budget.generation)
      ensures ok ==> resident == actual && budget.resident == Wrap(old(budget.resident) as int + actual as int)
      ensures ok && this in budget.weights && old(resident) != 0 ==> !budget.Balanced()
      ensures ok && this in budget.weights && old(resident) == 0 ==>
        && budget.Valid() && budget.State() == Mark(old(budget.State()), actual as int)
        && budget.marks == old(budget.marks)[this := actual as int]
      ensures !ok ==> budget.Valid() && resident == old(resident)
      ensures !ok ==> budget.State() == old(budget.State()) && budget.marks == old(budget.marks)
    {
      if actual < 0 || actual > weight {
        return false;
      }
      Count(actual);
      return true;
    }

    // The critical section of MarkResident
    method Count(actual: int64)
      requires budget.Valid() && 0 <= actual <= weight
      modifies this, budget
      ensures budget.weights == old(budget.weights) && released == old(released) && resident == actual
      ensures budget.reserved == old(budget.reserved) && budget.generation == old(budget.generation)
      ensures budget.resident == Wrap(old(budget.resident) as int + actual as int)
      ensures this in budget.weights && old(resident) != 0 ==> !budget.Balanced()
      ensures this in budget.weights && old(resident) == 0 ==>
        && budget.Valid() && budget.State() == Mark(old(budget.State()), actual as int)
        && budget.marks == old(budget.marks)[this := actual as int]
    {
      hide Wrap, Total, ByteBudget.Balanced;
      budget.Bounds();
      budget.AllOutstanding();
      WrapOf(budget.resident as int + actual as int);
      ghost var marked := budget.marks;
      if this in budget.weights {
        budget.Remarked(this, actual);
        marked := budget.marks[this := actual as int];
      }
      resident := actual;
      budget.CountResident(actual, marked);
      if this in budget.weights {
        budget.BalancedFrom();
      }
    }

    // Only the first call has an effect, however many copies of the loaded
    // segment still point at this lease.
    method Release() returns (first: bool)
      requires budget.Balanced()
      requires !released ==> this in budget.weights
      modifies this, budget
      ensures budget.Balanced() && released && (old(budget.Valid()) ==> budget.Valid())
      ensures first == !old(released)
      ensures first ==> budget.State() == Free(old(budget.State()), weight as int, resident as int)
      ensures first ==> budget.weights == old(budget.weights) - {this}
      ensures first ==> budget.marks == old(budget.marks) - {this}
      ensures !first ==> budget.State() == old(budget.State())
      ensures !first ==> budget.weights == old(budget.weights) && budget.marks == old(budget.marks)
      ensures resident == old(resident)
    {
      if released {
        return false;
      }
      GiveBack();
      return true;
    }

    // The critical section of Release
    method GiveBack()
      requires budget.Balanced() && !released && this in budget.weights
      modifies this, budget
      ensures budget.Balanced() && released && resident == old(resident)
      ensures old(budget.Valid()) ==> budget.Valid()
      ensures budget.State() == Free(old(budget.State()), weight as int, resident as int)
      ensures budget.weights == old(budget.weights) - {this} && budget.marks == old(budget.marks) - {this}
    {
      hide Total, ByteBudget.Balanced;
      budget.Bounds();
      budget.AllOutstanding();
      assert budget.Outstanding(this);
      TotalRemove(budget.weights, this);
      TotalRemove(budget.marks, this);
      TotalOrdered(budget.marks - {this}, budget.weights - {this});
      released := true;
      budget.reserved := budget.reserved - weight;
      budget.resident := budget.resident - resident;
      budget.generation := budget.generation + 1;
      budget.weights, budget.marks := budget.weights - {this}, budget.marks - {this};
      budget.BalancedFrom();
    }
  }
}

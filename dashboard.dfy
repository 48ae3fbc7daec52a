/** The dashboard's statistics over the to-do list. */
module Dashboard {
  import opened Seqs
  import opened TodoSlice

  datatype Stats = Stats(total: nat, completed: nat, pending: nat, highPriority: nat)

  function IsCompleted(): Todo -> bool { (t: Todo) => t.completed }
  function IsPending(): Todo -> bool { (t: Todo) => !t.completed }
  function IsHighPriority(): Todo -> bool { (t: Todo) => t.priority >= 4 }

  /** `stats`: each count is the length of a filtered list. */
  function ComputeStats(todos: seq<Todo>): (s: Stats)
    ensures s.total == |todos|
    ensures s.completed + s.pending == s.total
    ensures s.highPriority <= s.total
    ensures s.completed == |Filter(todos, IsCompleted())|
    ensures s.highPriority == |Filter(todos, IsHighPriority())|
  {
    FilterSplit(todos, IsCompleted(), IsPending());
    Stats(|todos|, |Filter(todos, IsCompleted())|, |Filter(todos, IsPending())|,
          |Filter(todos, IsHighPriority())|)
  }

  /** `completionRate`, as an exact percentage (the floating-point rounding is not modelled):
      0 when there are no todos. */
  function CompletionRate(s: Stats): (r: real)
    ensures s.total == 0 ==> r == 0.0
    ensures s.completed <= s.total ==> 0.0 <= r <= 100.0
    ensures 0 < s.total == s.completed ==> r == 100.0
  {
    if s.total != 0 then (s.completed as real / s.total as real) * 100.0 else 0.0
  }

  /** Over computed statistics the rate always lies between 0 and 100. */
  lemma CompletionRateBounded(todos: seq<Todo>)
    ensures 0.0 <= CompletionRate(ComputeStats(todos)) <= 100.0
  {
    var s := ComputeStats(todos);
    assert s.completed <= s.total;
  }
}

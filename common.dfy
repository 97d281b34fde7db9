/** Small shared vocabulary: an optional value (JavaScript's null/undefined,
    Python's None) and Python's list indexing rule. */
module Common {

  datatype Option<+T> = None | Some(value: T)

  /** Python's `xs[i]` for a list of length `n`: a non-negative index counts
      from the front, a negative one from the back, anything else raises
      IndexError (None here). */
  function PyIndex(n: nat, i: int): (r: Option<nat>)
    ensures r.Some? <==> -(n as int) <= i < n
    ensures r.Some? ==> r.value < n && (r.value == i || r.value == n + i)
  {
    if 0 <= i < n then Some(i)
    else if -(n as int) <= i < 0 then Some(n + i)
    else None
  }
}

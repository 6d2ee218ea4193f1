/** How current an answer is, and which of two answers is the worse one. */
module Freshness {

  /** The three levels the servers exchange, and any other string a remote server may send. */
  datatype Level = Live | Stale | Unavailable | Unrecognized(text: string)

  predicate Valid(f: Level) {
    !f.Unrecognized?
  }

  /** An unrecognized string ranks with live. */
  function Rank(f: Level): nat {
    match f
    case Live => 0
    case Stale => 1
    case Unavailable => 2
    case Unrecognized(_) => 0
  }

  function Worse(left: Level, right: Level): (r: Level)
    ensures r == left || r == right
    ensures Rank(left) <= Rank(r) && Rank(right) <= Rank(r)
    ensures Valid(left) && Valid(r) ==> (r.Live? <==> Rank(left) == 0 && Rank(right) == 0)
  {
    if Rank(right) > Rank(left) then right else left
  }

  function OfAge(age: int, staleAfter: int, unavailableAfter: int): (r: Level)
    ensures Valid(r)
    ensures age < staleAfter && age < unavailableAfter <==> r.Live?
    ensures staleAfter <= age < unavailableAfter <==> r.Stale?
    ensures unavailableAfter <= age <==> r.Unavailable?
  {
    if age >= unavailableAfter then Unavailable
    else if age >= staleAfter then Stale
    else Live
  }
}

/** The process exit codes of the command-line client: nine named codes, 0 to 8. */
module ExitCodes {

  import opened Wrappers

  datatype Name =
    | Success
    | General
    | Auth
    | Subscription
    | Account
    | Validation
    | RateLimit
    | Network
    | Timeout

  /** The numeric values a command may exit with. */
  type Code = n: nat | n <= 8

  /** The value of each name: SUCCESS 0, GENERAL 1, AUTH 2, SUBSCRIPTION 3,
      ACCOUNT 4, VALIDATION 5, RATE_LIMIT 6, NETWORK 7, TIMEOUT 8. */
  function Value(name: Name): (c: Code)
    ensures c == 0 <==> name == Success
    ensures name == General ==> c == 1
    ensures name == Auth ==> c == 2
    ensures name == Subscription ==> c == 3
    ensures name == Account ==> c == 4
    ensures name == Validation ==> c == 5
    ensures name == RateLimit ==> c == 6
    ensures name == Network ==> c == 7
    ensures name == Timeout ==> c == 8
  {
    match name
    case Success => 0
    case General => 1
    case Auth => 2
    case Subscription => 3
    case Account => 4
    case Validation => 5
    case RateLimit => 6
    case Network => 7
    case Timeout => 8
  }

  /** The name carrying a given value: every code has exactly one. */
  function NameOf(c: Code): (name: Name)
    ensures Value(name) == c
  {
    if c == 0 then Success
    else if c == 1 then General
    else if c == 2 then Auth
    else if c == 3 then Subscription
    else if c == 4 then Account
    else if c == 5 then Validation
    else if c == 6 then RateLimit
    else if c == 7 then Network
    else Timeout
  }

  /** Distinct names have distinct values, so names and codes are in bijection. */
  lemma ValueInjective(a: Name, b: Name)
    ensures Value(a) == Value(b) ==> a == b
  {
    assert NameOf(Value(a)) == a && NameOf(Value(b)) == b by {
      match a
      case Success =>
      case General =>
      case Auth =>
      case Subscription =>
      case Account =>
      case Validation =>
      case RateLimit =>
      case Network =>
      case Timeout =>
    }
  }

  /** Every value from 0 to 8 is some name's value and no other number is. */
  lemma CodesAreExactlyTheValues(n: int)
    ensures (0 <= n <= 8) <==> exists name :: Value(name) == n
  {
    if 0 <= n <= 8 {
      assert Value(NameOf(n)) == n;
    }
  }
}

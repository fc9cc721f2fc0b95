/** Shared vocabulary of the Phoenix agents: optional values (the `dict.get`
    defaults of the source), ASCII case mapping, substring search, decimal
    rendering of integers, line joining, and the records that travel between
    agents inside events (a diagnosis and the per-action result dictionaries). */
module Base {

  datatype Option<T> = None | Some(value: T) {
    /** `d.get(key, default)` once the lookup has produced an Option. */
    function GetOr(default: T): T {
      match this
      case Some(v) => v
      case None => default
    }
  }

  /** The `diagnosis` dictionary as the resolution agent reads it:
      `root_cause` (default "") and `confidence` (default 0.0). */
  datatype Diagnosis = Diagnosis(rootCause: Option<string>, confidence: Option<real>)

  /** The dictionary `{}` that stands in for a missing diagnosis. */
  const EmptyDiagnosis := Diagnosis(None, None)

  /** The kinds of remediation action (`ActionType`). */
  datatype ActionType =
    | ScaleOut | ScaleUp | RestartService | ClearCache
    | OptimizeDatabase | UpdateConfig | RollbackDeployment | CircuitBreaker

  /** The string value of an action type, as it appears in result entries. */
  function TypeValue(t: ActionType): string {
    match t
    case ScaleOut => "scale_out"
    case ScaleUp => "scale_up"
    case RestartService => "restart_service"
    case ClearCache => "clear_cache"
    case OptimizeDatabase => "optimize_database"
    case UpdateConfig => "update_config"
    case RollbackDeployment => "rollback_deployment"
    case CircuitBreaker => "circuit_breaker"
  }

  /** How Python prints an optional string inside an f-string. */
  function PyText(s: Option<string>): string {
    s.GetOr("None")
  }

  /** The prefix each executor puts before the text of an exception it
      caught. */
  function FailurePrefix(t: ActionType): string {
    match t
    case ScaleOut => "Scale out failed: "
    case ScaleUp => "Scale up failed: "
    case RestartService => "Service restart failed: "
    case ClearCache => "Cache clear failed: "
    case OptimizeDatabase => "Database optimization failed: "
    case UpdateConfig => "Configuration update failed: "
    case RollbackDeployment => "Rollback failed: "
    case CircuitBreaker => "Circuit breaker setup failed: "
  }

  /** The `message` of an executor's result, kept as the event it reports;
      `Text` is the string the executor writes for it. */
  datatype ExecMessage =
    | LimitExceeded(target: int)
    | ExecutorFailed(kind: ActionType, error: string)
    | ScaledOut(instances: int)
    | ScaledUp(sku: string)
    | ServiceRestarted(service: Option<string>)
    | CacheCleared(cacheType: string)
    | DatabaseOptimized
    | ConfigUpdated
    | RolledBackTo(version: Option<string>)
    | BreakerEnabled
  {
    function Text(): string {
      match this
      case LimitExceeded(n) => "Target instances (" + IntToString(n) + ") exceeds safety limit"
      case ExecutorFailed(k, e) => FailurePrefix(k) + e
      case ScaledOut(n) => "Successfully scaled out to " + IntToString(n) + " instances"
      case ScaledUp(sku) => "Successfully scaled up to " + sku
      case ServiceRestarted(name) => "Successfully restarted service " + PyText(name)
      case CacheCleared(c) => "Successfully cleared " + c
      case DatabaseOptimized => "Database configuration optimized"
      case ConfigUpdated => "Configuration updated successfully"
      case RolledBackTo(v) => "Successfully rolled back to version " + PyText(v)
      case BreakerEnabled => "Circuit breaker enabled successfully"
    }
  }

  /** The text of a caught exception can be read back from the failure
      message: the prefix is fixed by the action type. */
  lemma FailureTextDeterminesError(k: ActionType, e1: string, e2: string)
    ensures ExecutorFailed(k, e1).Text() == ExecutorFailed(k, e2).Text() <==> e1 == e2
  {
    var p := FailurePrefix(k);
    if ExecutorFailed(k, e1).Text() == ExecutorFailed(k, e2).Text() {
      assert (p + e1)[|p|..] == e1;
      assert (p + e2)[|p|..] == e2;
    }
  }

  /** One entry of `actions_taken`: the dictionary that the resolution agent's
      plan executor appends per action and that the orchestrator and the
      communication agent consume. Durations are whole seconds. */
  datatype ActionResult = ActionResult(
    actionId: string,
    kind: string,
    description: string,
    success: bool,
    message: ExecMessage,
    duration: int)

  // ---------------------------------------------------------------------
  // Characters and case

  function LowerChar(c: char): char {
    if 'A' <= c <= 'Z' then (c as int + 32) as char else c
  }

  function UpperChar(c: char): char {
    if 'a' <= c <= 'z' then (c as int - 32) as char else c
  }

  /** `str.lower()` restricted to ASCII letters. */
  function ToLower(s: string): (r: string)
    ensures |r| == |s|
    ensures forall i :: 0 <= i < |s| ==> r[i] == LowerChar(s[i])
  {
    seq(|s|, i requires 0 <= i < |s| => LowerChar(s[i]))
  }

  /** `str.upper()` restricted to ASCII letters. */
  function ToUpper(s: string): (r: string)
    ensures |r| == |s|
    ensures forall i :: 0 <= i < |s| ==> r[i] == UpperChar(s[i])
  {
    seq(|s|, i requires 0 <= i < |s| => UpperChar(s[i]))
  }

  /** Upper-casing twice is upper-casing once. */
  lemma ToUpperIdempotent(s: string)
    ensures ToUpper(ToUpper(s)) == ToUpper(s)
  {
  }

  // ---------------------------------------------------------------------
  // Substrings

  /** `sub` occurs in `s` starting at position `i`. */
  predicate OccursAt(s: string, sub: string, i: int) {
    0 <= i && i + |sub| <= |s| && s[i..i + |sub|] == sub
  }

  /** `sub in s` for Python strings: a left-to-right scan for an occurrence. */
  predicate Contains(s: string, sub: string)
    decreases |s|
  {
    if |sub| > |s| then false
    else if s[..|sub|] == sub then true
    else |s| > 0 && Contains(s[1..], sub)
  }

  /** An occurrence at a known position makes the scan succeed. */
  lemma {:induction false} ContainsAt(s: string, sub: string, i: int)
    requires OccursAt(s, sub, i)
    ensures Contains(s, sub)
    decreases i
  {
    if i > 0 && s[..|sub|] != sub {
      assert s[1..][i - 1..i - 1 + |sub|] == s[i..i + |sub|];
      ContainsAt(s[1..], sub, i - 1);
    }
  }

  /** A successful scan has found an occurrence. */
  lemma {:induction false} ContainsWitness(s: string, sub: string) returns (i: nat)
    requires Contains(s, sub)
    ensures OccursAt(s, sub, i)
    decreases |s|
  {
    if s[..|sub|] == sub {
      i := 0;
    } else {
      var j := ContainsWitness(s[1..], sub);
      assert s[1..][j..j + |sub|] == s[j + 1..j + 1 + |sub|];
      i := j + 1;
    }
  }

  /** The scan agrees with the definition of a substring by position. */
  lemma ContainsIffOccurs(s: string, sub: string)
    ensures Contains(s, sub) <==> exists i :: OccursAt(s, sub, i)
  {
    if Contains(s, sub) {
      var i := ContainsWitness(s, sub);
    }
    if exists i :: OccursAt(s, sub, i) {
      var i :| OccursAt(s, sub, i);
      ContainsAt(s, sub, i);
    }
  }

  /** Every character of a substring occurs in the string; so a character of
      `sub` missing from `s` shows that `sub` is not in `s`. */
  lemma ContainsChar(s: string, sub: string, k: nat)
    requires k < |sub|
    ensures Contains(s, sub) ==> sub[k] in s
  {
    if Contains(s, sub) {
      var i := ContainsWitness(s, sub);
      assert s[i..i + |sub|][k] == s[i + k];
    }
  }

  /** A prefix that lacks the first character of `sub` cannot supply an
      occurrence of it: `sub` is in `p + t` only if it is in `t`. */
  lemma ContainsAfterPrefix(p: string, t: string, sub: string)
    requires |sub| > 0 && sub[0] !in p && !Contains(t, sub)
    ensures !Contains(p + t, sub)
  {
    if Contains(p + t, sub) {
      var i := ContainsWitness(p + t, sub);
      assert (p + t)[i..i + |sub|][0] == (p + t)[i];
      if i >= |p| {
        assert t[i - |p|..i - |p| + |sub|] == (p + t)[i..i + |sub|];
        ContainsAt(t, sub, i - |p|);
      }
    }
  }

  // ---------------------------------------------------------------------
  // Decimal numbers, as `str(n)` prints them

  function DigitChar(d: nat): char
    requires d < 10
  {
    "0123456789"[d]
  }

  function DigitValue(c: char): nat {
    if '0' <= c <= '9' then c as int - '0' as int else 0
  }

  predicate IsDigits(s: string) {
    forall i :: 0 <= i < |s| ==> '0' <= s[i] <= '9'
  }

  /** `str(n)` for a non-negative integer: decimal, no leading zeros. */
  function NatToString(n: nat): (r: string)
    ensures |r| > 0 && IsDigits(r)
    decreases n
  {
    if n < 10 then [DigitChar(n)] else NatToString(n / 10) + [DigitChar(n % 10)]
  }

  /** `str(i)` for any integer: a minus sign before the digits of `-i`. */
  function IntToString(i: int): (r: string)
    ensures |r| > 0
    ensures i >= 0 ==> r == NatToString(i)
    ensures i < 0 ==> r[0] == '-' && r[1..] == NatToString(-i)
  {
    if i < 0 then "-" + NatToString(-i) else NatToString(i)
  }

  /** Reads a string of decimal digits back as a number (`int(s)`). */
  function ParseNat(s: string): nat
    decreases |s|
  {
    if s == [] then 0 else ParseNat(s[..|s| - 1]) * 10 + DigitValue(s[|s| - 1])
  }

  lemma DigitRoundTrip(d: nat)
    requires d < 10
    ensures DigitValue(DigitChar(d)) == d
  {
  }

  /** Printing a number and reading it back gives the number: the decimal
      text in messages such as "... and N more items" determines N. */
  lemma {:induction false} ParseNatToString(n: nat)
    ensures ParseNat(NatToString(n)) == n
    decreases n
  {
    if n < 10 {
      DigitRoundTrip(n);
      assert NatToString(n)[..0] == [];
    } else {
      var prefix := NatToString(n / 10);
      var s := prefix + [DigitChar(n % 10)];
      assert s[..|s| - 1] == prefix;
      ParseNatToString(n / 10);
      DigitRoundTrip(n % 10);
    }
  }

  /** Distinct numbers print differently. */
  lemma NatToStringInjective(m: nat, n: nat)
    requires NatToString(m) == NatToString(n)
    ensures m == n
  {
    ParseNatToString(m);
    ParseNatToString(n);
  }

  predicate IsDigit(c: char) {
    '0' <= c <= '9'
  }

  lemma IndexInLeftPart(a: string, x: string, i: nat)
    requires i < |a|
    ensures (a + x)[i] == a[i]
  {
  }

  /** A run of digits ends where the first non-digit starts. */
  lemma DigitsPrefixUnique(a: string, x: string, b: string, y: string)
    requires IsDigits(a) && IsDigits(b) && |x| > 0 && |y| > 0 && !IsDigit(x[0]) && !IsDigit(y[0])
    requires a + x == b + y
    ensures a == b && x == y
  {
    if |a| < |b| {
      IndexInLeftPart(b, y, |a|);
      assert false;
    } else if |b| < |a| {
      IndexInLeftPart(a, x, |b|);
      assert false;
    } else {
      assert a == (a + x)[..|a|] && b == (b + y)[..|b|];
      assert x == (a + x)[|a|..] && y == (b + y)[|b|..];
    }
  }

  // ---------------------------------------------------------------------
  // Lines

  function Min(a: nat, b: nat): nat {
    if a <= b then a else b
  }

  /** `sep.join(parts)`. */
  function Join(parts: seq<string>, sep: string): string {
    if parts == [] then ""
    else if |parts| == 1 then parts[0]
    else parts[0] + sep + Join(parts[1..], sep)
  }

  /** The joined text opens with the first part. */
  lemma JoinStartsWith(parts: seq<string>, sep: string)
    requires |parts| > 0
    ensures parts[0] <= Join(parts, sep)
  {
    if |parts| > 1 {
      assert parts[0] + sep + Join(parts[1..], sep) == parts[0] + (sep + Join(parts[1..], sep));
    }
  }

  /** A text opens with the first character of any non-empty prefix of it. */
  lemma PrefixFirstChar(p: string, s: string)
    requires |p| > 0 && p <= s
    ensures s[0] == p[0]
  {
  }

  /** Python's `int(x)` on a quotient: division truncated toward zero, which
      differs from Dafny's Euclidean `/` on negative numerators. */
  function TruncDiv(a: int, b: int): (q: int)
    requires b > 0
    ensures a >= 0 ==> q == a / b
    ensures a < 0 ==> q == -((-a) / b)
  {
    if a >= 0 then a / b else -((-a) / b)
  }

  /** Number of true entries. */
  function CountTrue(bs: seq<bool>): (k: nat)
    ensures k <= |bs|
  {
    if bs == [] then 0 else (if bs[0] then 1 else 0) + CountTrue(bs[1..])
  }
}

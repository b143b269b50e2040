/**
 * The mini test harness: three counters updated by `startTest` and `it`, the
 * summary printed by the end callback, and the `expect` matchers. A callback
 * that throws is modelled by its `Outcome`; the error objects and the text
 * written to standard error are not modelled.
 */
module TestHarness {
  import opened Numbers
  import opened Json

  /** How a callback ended: normally, or by throwing. */
  datatype Outcome = Returned | Threw

  /** One `it(name, fn)` call made by a `describe` body, with the outcome of `fn`. */
  datatype Case = Case(name: string, outcome: Outcome)

  const Cross: string := "\U{274C}"

  /** The line `it` logs for a case. */
  function CaseLine(c: Case): string
  {
    if c.outcome == Returned then " - " + c.name else Cross + " " + c.name
  }

  function CaseLines(cases: seq<Case>): (lines: seq<string>)
    ensures |lines| == |cases|
  {
    if cases == [] then [] else CaseLines(cases[..|cases| - 1]) + [CaseLine(cases[|cases| - 1])]
  }

  function Passed(cases: seq<Case>): nat
  {
    if cases == [] then 0
    else Passed(cases[..|cases| - 1]) + (if cases[|cases| - 1].outcome == Returned then 1 else 0)
  }

  function Failures(cases: seq<Case>): nat
  {
    if cases == [] then 0
    else Failures(cases[..|cases| - 1]) + (if cases[|cases| - 1].outcome == Threw then 1 else 0)
  }

  /** Every case is counted once, as a success or as a failure. */
  lemma {:induction false} CasesSplit(cases: seq<Case>)
    ensures Passed(cases) + Failures(cases) == |cases|
  {
    if cases != [] {
      CasesSplit(cases[..|cases| - 1]);
    }
  }

  /** The end callback's message: successes, total and errors, "error" pluralised above one. */
  function SummaryLine(success: nat, total: nat, failed: nat): string
  {
    "\n" + NatToString(success) + " / " + NatToString(total) + " succeeded with " + NatToString(failed) +
    " error" + (if failed > 1 then "s" else "") + "."
  }

  lemma SummaryPlural(success: nat, total: nat, failed: nat)
    ensures var line := SummaryLine(success, total, failed);
      |line| >= 7 &&
      (line[|line| - 7..] == "errors." <==> failed > 1) &&
      (line[|line| - 7..] == " error." <==> failed <= 1)
  {
    var head := "\n" + NatToString(success) + " / " + NatToString(total) + " succeeded with " + NatToString(failed);
    var line := SummaryLine(success, total, failed);
    if failed > 1 {
      assert line == head + " errors.";
      assert line[|line| - 7..] == "errors.";
      assert "errors."[0] != " error."[0];
    } else {
      assert line == head + " error.";
      assert line[|line| - 7..] == " error.";
      assert "errors."[0] != " error."[0];
    }
  }

  /** The status a POSIX shell sees after `process.exit(code)`: the low eight bits of the code. */
  function ExitStatus(code: nat): (status: nat)
    ensures status < 256
    ensures status == 0 <==> code % 256 == 0
    ensures code < 256 ==> status == code
  {
    code % 256
  }

  /** A run with 256 failures exits with status 0, which the shell reads as success. */
  lemma ManyFailuresLookLikeSuccess(failed: nat)
    requires failed > 0 && failed % 256 == 0
    ensures ExitStatus(failed) == 0
    ensures ExitStatus(256) == 0
  {
  }

  /** The module-level counters of the harness and the lines it has logged. */
  class TestRun {
    var total: nat
    var success: nat
    var failed: nat
    var log: seq<string>

    ghost predicate Valid()
      reads this
    {
      total == success + failed
    }

    /** The module is loaded: `let total = 0`, `let success = 0`, `let failed = 0`. */
    constructor ()
      ensures Valid()
      ensures total == 0 && success == 0 && failed == 0 && log == []
    {
      total := 0;
      success := 0;
      failed := 0;
      log := [];
    }

    /** `startTest()`: the counters reset; the end callback is `End`. */
    method StartTest()
      modifies this
      ensures Valid()
      ensures total == 0 && success == 0 && failed == 0 && log == old(log)
    {
      total := 0;
      success := 0;
      failed := 0;
    }

    /** `it(name, fn)`: one more test, and one more success or one more failure. */
    method It(name: string, outcome: Outcome)
      requires Valid()
      modifies this
      ensures Valid()
      ensures total == old(total) + 1
      ensures outcome == Returned ==> success == old(success) + 1 && failed == old(failed)
      ensures outcome == Threw ==> failed == old(failed) + 1 && success == old(success)
      ensures log == old(log) + [CaseLine(Case(name, outcome))]
    {
      total := total + 1;
      if outcome == Returned {
        log := log + [" - " + name];
        success := success + 1;
      } else {
        failed := failed + 1;
        log := log + [Cross + " " + name];
      }
    }

    /** `describe(name, fn)`: the name logged, then the `it` calls `fn` makes, in order. */
    method Describe(name: string, cases: seq<Case>)
      requires Valid()
      modifies this
      ensures Valid()
      ensures total == old(total) + |cases|
      ensures success == old(success) + Passed(cases)
      ensures failed == old(failed) + Failures(cases)
      ensures log == old(log) + [name] + CaseLines(cases)
    {
      log := log + [name];
      ghost var start := log;
      for k := 0 to |cases|
        invariant Valid()
        invariant total == old(total) + k
        invariant success == old(success) + Passed(cases[..k])
        invariant failed == old(failed) + Failures(cases[..k])
        invariant log == start + CaseLines(cases[..k])
      {
        assert cases[..k + 1][..k] == cases[..k];
        It(cases[k].name, cases[k].outcome);
      }
      assert cases[..|cases|] == cases;
    }

    /**
     * The end callback: the summary is logged and `process.exit` is called
     * with the failure count; the shell sees that count modulo 256.
     */
    method End() returns (exitCode: nat, status: nat)
      requires Valid()
      modifies this
      ensures Valid()
      ensures exitCode == failed
      ensures status == ExitStatus(exitCode)
      ensures total == old(total) && success == old(success) && failed == old(failed)
      ensures log == old(log) + [SummaryLine(success, total, failed)]
    {
      log := log + [SummaryLine(success, total, failed)];
      exitCode := failed;
      status := ExitStatus(exitCode);
    }
  }

  // ------------------------------------------------------------- matchers

  /** The values the matchers compare. Objects are told apart by identity only. */
  datatype JsValue =
    | Undefined
    | Null
    | Bool(b: bool)
    | Number(x: real)
    | NaN
    | Str(s: string)
    | Object(id: nat)

  /** `a === b`: equal primitives or the same object, and `NaN` equal to nothing. */
  predicate StrictEquals(a: JsValue, b: JsValue)
  {
    match a
    case NaN => false
    case _ => a == b
  }

  /** JavaScript truthiness. */
  predicate Truthy(v: JsValue)
  {
    match v
    case Undefined => false
    case Null => false
    case Bool(b) => b
    case Number(x) => x != 0.0
    case NaN => false
    case Str(s) => s != ""
    case Object(_) => true
  }

  /** The falsy values among `JsValue`: every falsy value of the language except the BigInt `0n`, with `-0` merged into `0`. */
  const Falsy: set<JsValue> := {Undefined, Null, Bool(false), Number(0.0), NaN, Str("")}

  /** `toBe`: throws when `actual !== expected`, so it passes exactly on equal values other than `NaN`. */
  function ToBe(actual: JsValue, expected: JsValue): (r: Outcome)
    ensures r == Returned <==> actual == expected && !actual.NaN?
  {
    if !StrictEquals(actual, expected) then Threw else Returned
  }

  /** `toBe` does not depend on which side is the actual value. */
  lemma ToBeSymmetric(actual: JsValue, expected: JsValue)
    ensures ToBe(actual, expected) == ToBe(expected, actual)
  {
  }

  /** `toBeTruthy`: throws exactly on the falsy values. */
  function ToBeTruthy(actual: JsValue): (r: Outcome)
    ensures r == Threw <==> actual in Falsy
  {
    if !Truthy(actual) then Threw else Returned
  }

  /** `toBeFalsy`: passes exactly on the falsy values. */
  function ToBeFalsy(actual: JsValue): (r: Outcome)
    ensures r == Returned <==> actual in Falsy
  {
    if Truthy(actual) then Threw else Returned
  }

  /** Exactly one of `toBeTruthy` and `toBeFalsy` throws. */
  lemma TruthyFalsy(actual: JsValue)
    ensures ToBeTruthy(actual) == Threw <==> ToBeFalsy(actual) == Returned
    ensures ToBeTruthy(actual) != ToBeFalsy(actual)
  {
  }

  /**
   * `toEqual`: throws when the two `JSON.stringify` texts differ. On the values
   * the serialiser covers, that is exactly when the values differ.
   */
  function ToEqual(actual: Json, expected: Json): (r: Outcome)
    ensures r == Threw <==> actual != expected
  {
    StringifyInjective(actual, expected);
    if Stringify(actual) != Stringify(expected) then Threw else Returned
  }

  /**
   * `toThrow` as written: the error it raises itself when `actual()` returns
   * is caught by its own `catch`, so it returns in every case.
   */
  function ToThrowAsWritten(callback: Outcome): (r: Outcome)
    ensures r == Returned
  {
    match callback
    case Returned => Returned
    case Threw => Returned
  }

  /** `toThrow` as its error message intends: it throws exactly when the callback returns. */
  function ToThrow(callback: Outcome): (r: Outcome)
    ensures r == Threw <==> callback == Returned
  {
    if callback == Returned then Threw else Returned
  }

  /** A callback that returns normally passes `toThrow` as written, and fails it as intended. */
  lemma ToThrowDiscrepancy()
    ensures ToThrowAsWritten(Returned) == Returned
    ensures ToThrow(Returned) == Threw
  {
  }
}

/**
 * The shape of a zod object schema: each field has a type and an ordered list of
 * checks, each check a predicate with a message. Parsing runs every check of a
 * field (a failed length check does not stop the refinements after it); only a
 * value of the wrong type stops a field, with a single type issue. The issues of
 * all fields are reported in field order, then check order.
 */
module Validation {
  import opened JsonValue

  datatype Check<!T> = Check(holds: T -> bool, message: string)

  /** The messages of the checks `x` fails, in declaration order. */
  function Failing<T>(x: T, checks: seq<Check<T>>): (msgs: seq<string>)
    ensures |msgs| <= |checks|
    ensures msgs == [] <==> forall i :: 0 <= i < |checks| ==> checks[i].holds(x)
    ensures forall m :: m in msgs ==> exists i :: 0 <= i < |checks| && !checks[i].holds(x) && checks[i].message == m
  {
    if checks == [] then []
    else
      var rest := Failing(x, checks[1..]);
      assert forall i :: 1 <= i < |checks| ==> checks[i] == checks[1..][i - 1];
      if checks[0].holds(x) then rest else [checks[0].message] + rest
  }

  /**
   * The positions of the checks `x` fails, ascending; `FailedIndicesComplete`
   * shows that none is missing.
   */
  function FailedIndices<T>(x: T, checks: seq<Check<T>>): (r: seq<nat>)
    ensures forall j :: 0 <= j < |r| ==> r[j] < |checks| && !checks[r[j]].holds(x)
    ensures forall j, k :: 0 <= j < k < |r| ==> r[j] < r[k]
  {
    if checks == [] then []
    else
      var n := |checks| - 1;
      assert forall i :: 0 <= i < n ==> checks[..n][i] == checks[i];
      FailedIndices(x, checks[..n]) + (if checks[n].holds(x) then [] else [n])
  }

  /** Every check `x` fails has its position among `FailedIndices`. */
  lemma {:induction false} FailedIndicesComplete<T>(x: T, checks: seq<Check<T>>, i: nat)
    requires i < |checks| && !checks[i].holds(x)
    ensures i in FailedIndices(x, checks)
  {
    var n := |checks| - 1;
    if i < n {
      FailedIndicesComplete(x, checks[..n], i);
    }
  }

  /**
   * A field reports every check it fails, in declaration order, and nothing
   * else: the j-th message is that of the j-th failing check.
   */
  lemma {:induction false} FailingReportsEveryFailure<T>(x: T, checks: seq<Check<T>>)
    ensures var idx := FailedIndices(x, checks);
            && |Failing(x, checks)| == |idx|
            && forall j :: 0 <= j < |idx| ==> Failing(x, checks)[j] == checks[idx[j]].message
  {
    if checks != [] {
      var n := |checks| - 1;
      var init := checks[..n];
      FailingReportsEveryFailure(x, init);
      FailingSnoc(x, init, checks[n]);
      assert init + [checks[n]] == checks;
      var msgs, idx := Failing(x, init), FailedIndices(x, init);
      var tail := if checks[n].holds(x) then [] else [checks[n].message];
      assert Failing(x, checks) == msgs + tail;
      assert FailedIndices(x, checks) == idx + (if checks[n].holds(x) then [] else [n]);
      forall j | 0 <= j < |idx| ensures Failing(x, checks)[j] == checks[idx[j]].message {
        assert init[idx[j]] == checks[idx[j]];
      }
    }
  }

  /** Appending a check appends its message when it fails. */
  lemma {:induction false} FailingSnoc<T>(x: T, checks: seq<Check<T>>, c: Check<T>)
    ensures Failing(x, checks + [c]) == Failing(x, checks) + (if c.holds(x) then [] else [c.message])
  {
    if checks == [] {
      assert [c][1..] == [];
    } else {
      assert (checks + [c])[1..] == checks[1..] + [c];
      FailingSnoc(x, checks[1..], c);
    }
  }

  /** The first failing check of the list decides the first message. */
  lemma {:induction false} FailingStartsWithFirstFailure<T>(x: T, checks: seq<Check<T>>, k: nat)
    requires k < |checks| && !checks[k].holds(x)
    requires forall i :: 0 <= i < k ==> checks[i].holds(x)
    ensures Failing(x, checks) != [] && Failing(x, checks)[0] == checks[k].message
  {
    if k > 0 {
      FailingStartsWithFirstFailure(x, checks[1..], k - 1);
    }
  }

  /** When exactly one check fails, its message is the only issue. */
  lemma {:induction false} FailingOnlyOne<T>(x: T, checks: seq<Check<T>>, k: nat)
    requires k < |checks| && !checks[k].holds(x)
    requires forall i :: 0 <= i < |checks| && i != k ==> checks[i].holds(x)
    ensures Failing(x, checks) == [checks[k].message]
  {
    if k == 0 {
      assert forall i :: 0 <= i < |checks[1..]| ==> checks[1..][i] == checks[i + 1];
    } else {
      FailingOnlyOne(x, checks[1..], k - 1);
    }
  }

  /** The issues of a string field: a type issue, or the failing checks of the string. */
  function StringField(v: Value, checks: seq<Check<string>>): (issues: seq<string>)
    ensures issues == [] <==> v.Str? && forall i :: 0 <= i < |checks| ==> checks[i].holds(v.s)
    ensures !v.Str? ==> issues == [TypeIssue("string", v)]
    ensures v.Str? ==> issues == Failing(v.s, checks)
  {
    match v
    case Str(s) => Failing(s, checks)
    case _ => [TypeIssue("string", v)]
  }

  /** The issues of a number field. */
  function NumberField(v: Value, checks: seq<Check<real>>): (issues: seq<string>)
    ensures issues == [] <==> v.Num? && forall i :: 0 <= i < |checks| ==> checks[i].holds(v.n)
    ensures !v.Num? ==> issues == [TypeIssue("number", v)]
    ensures v.Num? ==> issues == Failing(v.n, checks)
  {
    match v
    case Num(n) => Failing(n, checks)
    case _ => [TypeIssue("number", v)]
  }

  /**
   * The message a handler reports from a failed parse:
   * `error.errors[0].message || "Invalid input"`.
   */
  function Reported(issues: seq<string>): (m: string)
    requires issues != []
    ensures m != ""
    ensures issues[0] != "" ==> m == issues[0]
  {
    if issues[0] == "" then "Invalid input" else issues[0]
  }
}

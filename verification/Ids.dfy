/** Row identifiers. A v4 UUID is drawn fresh; every other id is derived from the UUID of the run it
    belongs to, so that a repeated write meets its own earlier row. */
module Ids {

  datatype Id =
    | Uuid(n: nat)
    | StepId(run: nat, attempt: nat)
    | ToolId(run: nat, toolUse: string)
    | FinishId(run: nat)
    | ClosingId(run: nat)

  /** The UUID an id is, or is derived from. */
  function Base(id: Id): nat {
    match id
    case Uuid(n) => n
    case StepId(run, _) => run
    case ToolId(run, _) => run
    case FinishId(run) => run
    case ClosingId(run) => run
  }

  const DIGITS := "0123456789"

  /** Decimal text of a number, as Rust's `{}` prints it. */
  function Decimal(n: nat): (s: string)
    ensures |s| >= 1
  {
    if n < 10 then [DIGITS[n]] else Decimal(n / 10) + [DIGITS[n % 10]]
  }

  /** The text the database stores for an id. `uuid` gives the 36 characters of the n-th UUID. */
  function Render(uuid: nat -> string, id: Id): string {
    match id
    case Uuid(n) => uuid(n)
    case StepId(run, attempt) => uuid(run) + ":step:" + Decimal(attempt)
    case ToolId(run, toolUse) => uuid(run) + ":tool:" + toolUse
    case FinishId(run) => uuid(run) + ":finished"
    case ClosingId(run) => uuid(run) + ":closing"
  }

  /** Distinct UUIDs have distinct texts of the one fixed length. */
  ghost predicate UuidText(uuid: nat -> string) {
    && (forall n :: |uuid(n)| == 36)
    && (forall m, n :: uuid(m) == uuid(n) ==> m == n)
  }

  lemma {:induction false} DecimalInjective(m: nat, n: nat)
    requires Decimal(m) == Decimal(n)
    ensures m == n
  {
    if m >= 10 && n >= 10 {
      var s, t := Decimal(m), Decimal(n);
      assert s[..|s| - 1] == Decimal(m / 10) && t[..|t| - 1] == Decimal(n / 10);
      assert s[|s| - 1] == DIGITS[m % 10] && t[|t| - 1] == DIGITS[n % 10];
      DecimalInjective(m / 10, n / 10);
    }
  }

  /** How the ids look in the database. */
  lemma Spelled(uuid: nat -> string, run: nat)
    ensures Render(uuid, Uuid(run)) == uuid(run)
    ensures Render(uuid, StepId(run, 12)) == uuid(run) + ":step:12"
    ensures Render(uuid, ToolId(run, "tu_1")) == uuid(run) + ":tool:tu_1"
    ensures Render(uuid, FinishId(run)) == uuid(run) + ":finished"
    ensures Render(uuid, ClosingId(run)) == uuid(run) + ":closing"
  {
    assert Decimal(12) == Decimal(1) + ['2'] == "12";
    assert uuid(run) + ":step:" + "12" == uuid(run) + (":step:" + "12");
    assert uuid(run) + ":tool:" + "tu_1" == uuid(run) + (":tool:" + "tu_1");
  }

  /** No two ids share a text, so comparing ids compares what the database compares. */
  lemma RenderInjective(uuid: nat -> string, a: Id, b: Id)
    requires UuidText(uuid)
    requires Render(uuid, a) == Render(uuid, b)
    ensures a == b
  {
    var s, t := Render(uuid, a), Render(uuid, b);
    if !a.Uuid? && !b.Uuid? {
      assert s[..36] == uuid(a.run) && t[..36] == uuid(b.run);
      assert a.run == b.run;
      assert s[36..] == t[36..];
      assert s[37] == t[37] && s[36..][1] == s[37];
      match (a, b) {
        case (StepId(_, m), StepId(_, n)) =>
          assert s[42..] == Decimal(m) && t[42..] == Decimal(n);
          DecimalInjective(m, n);
        case (ToolId(_, x), ToolId(_, y)) =>
          assert s[42..] == x && t[42..] == y;
        case (_, _) =>
      }
    }
  }
}

/**
 * The context text `PinehillData.get_context_for_llm` offers the language
 * model (app.py:323-347), built from already-fetched database rows, and the
 * shaping of the monthly summary rows in `get_summary` (app.py:308-321).
 */
module PinehillContext {
  import opened Wrappers
  import opened JsonValue

  /** A value SQLite hands back for a column: NULL, an integer or a text. */
  datatype Cell = SqlNull | SqlInt(i: int) | SqlText(t: string)

  /** Python's `str()` of a column value inside an f-string. */
  function CellText(c: Cell): string
  {
    match c
    case SqlNull => "None"
    case SqlInt(i) => IntText(i)
    case SqlText(t) => t
  }

  /** The three columns of a `units` row that the context lists. */
  datatype Unit = Unit(unitId: Cell, roomNo: Cell, status: Cell)

  /** The row of the payments query: paid, pending and unpaid counts, and the amount sum (NULL without rows). */
  datatype PaymentRow = PaymentRow(paid: Option<int>, pending: Option<int>, unpaid: Option<int>, total: Option<int>)

  /** What `get_summary` returns: the shaped totals, or the month with the error text. */
  datatype Summary =
    | Summary(month: string, paid: int, pending: int, unpaid: int, totalAmount: int, expenses: int)
    | SummaryError(month: string, error: string)

  /** Python's `x or 0` on a column value that may be NULL. */
  function OrZero(x: Option<int>): (r: int)
    ensures x.None? ==> r == 0
    ensures x.Some? ==> r == x.value
  {
    if x.Some? && x.value != 0 then x.value else 0
  }

  /**
   * `get_summary(month)` (app.py:285-321) once its two queries have run:
   * `fetched` is the payments row and the expense sum, or the text of the
   * exception the database raised.
   */
  function ShapeSummary(month: string, fetched: Result<(PaymentRow, Option<int>)>): (r: Summary)
    ensures r.month == month
    ensures r.SummaryError? <==> fetched.Err?
    ensures fetched.Err? ==> r.error == fetched.message
    ensures fetched.Ok? ==>
      var (row, expenses) := fetched.value;
      && (row.paid.Some? ==> r.paid == row.paid.value) && (row.paid.None? ==> r.paid == 0)
      && (row.pending.Some? ==> r.pending == row.pending.value) && (row.pending.None? ==> r.pending == 0)
      && (row.unpaid.Some? ==> r.unpaid == row.unpaid.value) && (row.unpaid.None? ==> r.unpaid == 0)
      && (row.total.Some? ==> r.totalAmount == row.total.value) && (row.total.None? ==> r.totalAmount == 0)
      && (expenses.Some? ==> r.expenses == expenses.value) && (expenses.None? ==> r.expenses == 0)
  {
    match fetched
    case Err(e) => SummaryError(month, e)
    case Ok((row, expenses)) =>
      Summary(month, OrZero(row.paid), OrZero(row.pending), OrZero(row.unpaid), OrZero(row.total), OrZero(expenses))
  }

  /** At most this many units are listed (app.py:342). */
  const MaxListed: nat := 10

  /** The units `units[:10]` keeps. */
  function Listed(units: seq<Unit>): (r: seq<Unit>)
    ensures |r| == if |units| < MaxListed then |units| else MaxListed
    ensures r == units[..|r|]
  {
    if |units| <= MaxListed then units else units[..MaxListed]
  }

  /** The line app.py:343 appends for one unit. */
  function UnitLine(u: Unit): string
  {
    "- " + CellText(u.unitId) + " (" + CellText(u.roomNo) + "호): " + CellText(u.status) + "\n"
  }

  /** The texts `line` gives for `xs`, one after the other, in order. */
  function Lines<T>(xs: seq<T>, line: T -> string): string
  {
    if xs == [] then "" else Lines(xs[..|xs| - 1], line) + line(xs[|xs| - 1])
  }

  /** The lines for `units`, in order. */
  function UnitLines(units: seq<Unit>): string
  {
    Lines(units, UnitLine)
  }

  /**
   * The fixed part of the context (app.py:331-341). `group` is the
   * thousands-separated rendering `{n:,}`.
   */
  function Header(unitCount: nat, month: string, s: Summary, group: int -> string): string
    requires s.Summary?
  {
    "[Pinehill Manager 현황]\n"
    + "- 총 세대: " + IntText(unitCount) + "세대\n"
    + "- 이번 달(" + month + ") 납부 현황:\n"
    + "  * 완납: " + IntText(s.paid) + "세대\n"
    + "  * 미납: " + IntText(s.unpaid) + "세대\n"
    + "  * 확인필요: " + IntText(s.pending) + "세대\n"
    + "  * 총 입금액: " + group(s.totalAmount) + "원\n"
    + "- 이번 달 지출: " + group(s.expenses) + "원\n"
    + "\n"
    + "세대 목록:\n"
  }

  /**
   * The text `get_context_for_llm` returns for the fetched units, the current
   * month and that month's summary: empty exactly when the summary is the
   * error form, whose missing `payments` entry raises a KeyError that the
   * function swallows (app.py:346-347).
   */
  function Context(units: seq<Unit>, month: string, summary: Summary, group: int -> string): (c: string)
    ensures c == "" <==> summary.SummaryError?
  {
    if summary.SummaryError? then ""
    else Header(|units|, month, summary, group) + UnitLines(Listed(units))
  }

  /** `get_context_for_llm` (app.py:324-347): the header, then one appended line per listed unit. */
  method ContextForLlm(units: seq<Unit>, month: string, summary: Summary, group: int -> string) returns (context: string)
    ensures context == Context(units, month, summary, group)
  {
    if summary.SummaryError? {
      return "";
    }
    var header := Header(|units|, month, summary, group);
    context := header;
    var shown := Listed(units);
    for i := 0 to |shown|
      invariant context == header + UnitLines(shown[..i])
    {
      UnitLinesSnoc(shown, i);
      AppendAssoc(header, UnitLines(shown[..i]), UnitLine(shown[i]));
      context := context + UnitLine(shown[i]);
    }
    assert shown[..|shown|] == shown;
  }

  /** String concatenation regroups freely. */
  lemma AppendAssoc(a: string, b: string, c: string)
    ensures (a + b) + c == a + (b + c)
  {
  }

  /** Appending one unit appends its line. */
  lemma UnitLinesSnoc(units: seq<Unit>, i: nat)
    requires i < |units|
    ensures UnitLines(units[..i + 1]) == UnitLines(units[..i]) + UnitLine(units[i])
  {
    assert units[..i + 1][..i] == units[..i];
  }

  /** The lines of two lists back to back are the lines of their concatenation. */
  lemma {:induction false} LinesAppend<T>(a: seq<T>, b: seq<T>, line: T -> string)
    ensures Lines(a + b, line) == Lines(a, line) + Lines(b, line)
    decreases |b|
  {
    if b == [] {
      assert a + b == a;
    } else {
      var last := |b| - 1;
      assert (a + b)[..|a + b| - 1] == a + b[..last];
      LinesAppend(a, b[..last], line);
    }
  }

  /** In input order: unit `i`'s line follows the lines of the units before it and precedes those after it. */
  lemma UnitLinesInOrder(units: seq<Unit>, i: nat)
    requires i < |units|
    ensures UnitLines(units) == UnitLines(units[..i]) + UnitLine(units[i]) + UnitLines(units[i + 1..])
  {
    assert units == units[..i] + [units[i]] + units[i + 1..];
    LinesAppend(units[..i] + [units[i]], units[i + 1..], UnitLine);
    LinesAppend(units[..i], [units[i]], UnitLine);
    assert [units[i]][..0] == [];
  }

  /** Line breaks in a text. */
  function Newlines(s: string): nat
  {
    multiset(s)['\n']
  }

  predicate OneLine(c: Cell) {
    '\n' !in CellText(c)
  }

  /** A unit's line ends in its only line break. */
  lemma UnitLineCount(u: Unit)
    requires OneLine(u.unitId) && OneLine(u.roomNo) && OneLine(u.status)
    ensures Newlines(UnitLine(u)) == 1
  {
    var a, b, c := CellText(u.unitId), CellText(u.roomNo), CellText(u.status);
    SeparatorNewlines();
    NoNewline(a);
    NoNewline(b);
    NoNewline(c);
    NewlinesAppend("- ", a);
    NewlinesAppend("- " + a, " (");
    NewlinesAppend("- " + a + " (", b);
    NewlinesAppend("- " + a + " (" + b, "호): ");
    NewlinesAppend("- " + a + " (" + b + "호): ", c);
    NewlinesAppend("- " + a + " (" + b + "호): " + c, "\n");
  }

  /** The fixed parts of a unit's line: only the closing break is one. */
  lemma SeparatorNewlines()
    ensures Newlines("- ") == 0 && Newlines(" (") == 0 && Newlines("호): ") == 0 && Newlines("\n") == 1
  {
  }

  lemma NoNewline(s: string)
    requires '\n' !in s
    ensures Newlines(s) == 0
  {
  }

  lemma NewlinesAppend(x: string, y: string)
    ensures Newlines(x + y) == Newlines(x) + Newlines(y)
  {
    assert multiset(x + y) == multiset(x) + multiset(y);
  }

  /** When no listed cell holds a line break, the unit lines are exactly one line per unit. */
  lemma {:induction false} UnitLinesCount(units: seq<Unit>)
    requires forall u :: u in units ==> OneLine(u.unitId) && OneLine(u.roomNo) && OneLine(u.status)
    ensures Newlines(UnitLines(units)) == |units|
    decreases |units|
  {
    if units != [] {
      var init, u := units[..|units| - 1], units[|units| - 1];
      assert forall v :: v in init ==> v in units;
      UnitLinesCount(init);
      UnitLineCount(u);
      assert UnitLines(units) == UnitLines(init) + UnitLine(u);
      assert multiset(UnitLines(units)) == multiset(UnitLines(init)) + multiset(UnitLine(u));
    }
  }

  /**
   * The context lists at most ten units, the first ones, one line each after
   * the fixed header, however many units there are.
   */
  lemma ContextListsFirstTen(units: seq<Unit>, month: string, summary: Summary, group: int -> string)
    requires summary.Summary?
    requires forall u :: u in units ==> OneLine(u.unitId) && OneLine(u.roomNo) && OneLine(u.status)
    ensures var c := Context(units, month, summary, group);
      var h := Header(|units|, month, summary, group);
      && |h| <= |c| && c[..|h|] == h
      && c[|h|..] == UnitLines(units[..|Listed(units)|])
      && Newlines(c[|h|..]) == |Listed(units)| <= MaxListed
  {
    var shown := Listed(units);
    assert forall u :: u in shown ==> u in units;
    UnitLinesCount(shown);
  }
}

/** Usage counters and cost (app/worker/tasks/fetch_task.py) and their summary (app/api/v1/endpoints/usage.py). */
module UsageMetering {
  import opened Common

  const BYTES_PER_GB: nat := 1024 * 1024 * 1024

  /** 3.50 EUR per GB, in cents. */
  const CENTS_PER_GB: nat := 350

  /** The exact price of `bytes`, in cents. */
  function ExactCents(bytes: nat): real {
    CENTS_PER_GB as real * bytes as real / BYTES_PER_GB as real
  }

  /** math.ceil of the exact price. */
  function CostCents(bytes: nat): (c: nat)
    ensures ExactCents(bytes) <= c as real
    ensures bytes > 0 ==> c as real < ExactCents(bytes) + 1.0
    ensures bytes == 0 ==> c == 0
  {
    var units := CENTS_PER_GB * bytes;
    var c := (units + BYTES_PER_GB - 1) / BYTES_PER_GB;
    assert c * BYTES_PER_GB >= units && (c - 1) * BYTES_PER_GB < units;
    assert ExactCents(bytes) == units as real / BYTES_PER_GB as real;
    c
  }

  /** Whole gigabytes cost 3.50 EUR each, to the cent. */
  lemma GigabytePrice(gigabytes: nat)
    ensures CostCents(gigabytes * 1_073_741_824) == 350 * gigabytes
  {
    var bytes := gigabytes * 1_073_741_824;
    assert BYTES_PER_GB == 1_073_741_824;
    assert ExactCents(bytes) == (350 * gigabytes) as real;
  }

  datatype UsageRow = UsageRow(app: nat, month: int, requests: nat, bytes: nat, cents: nat)

  /** One committed upsert: a finished job of an application in a month. */
  datatype Upsert = Upsert(app: nat, month: int, bytes: nat)

  /** INSERT ... ON CONFLICT (application_id, period_month) DO UPDATE. */
  function Upserted(rows: seq<UsageRow>, u: Upsert): seq<UsageRow> {
    if rows == [] then [UsageRow(u.app, u.month, 1, u.bytes, CostCents(u.bytes))]
    else if rows[0].app == u.app && rows[0].month == u.month then
      [rows[0].(requests := rows[0].requests + 1, bytes := rows[0].bytes + u.bytes,
                cents := rows[0].cents + CostCents(u.bytes))]
      + rows[1..]
    else [rows[0]] + Upserted(rows[1..], u)
  }

  ghost predicate UniqueKeys(rows: seq<UsageRow>) {
    forall i, j :: 0 <= i < j < |rows| ==> rows[i].app != rows[j].app || rows[i].month != rows[j].month
  }

  /** The bounds of a summary query, both inclusive and both optional. */
  datatype Query = Query(app: nat, fromMonth: Option<int>, toMonth: Option<int>)

  predicate Selects(q: Query, app: nat, month: int) {
    app == q.app && (q.fromMonth.Some? ==> month >= q.fromMonth.value) && (q.toMonth.Some? ==> month <= q.toMonth.value)
  }

  /** The same read off the calendar: not before the first month asked for and not after the last. */
  predicate Covered(q: Query, u: Upsert) {
    && u.app == q.app
    && !(q.fromMonth.Some? && u.month < q.fromMonth.value)
    && !(q.toMonth.Some? && q.toMonth.value < u.month)
  }

  datatype Totals = Totals(requests: nat, bytes: nat, cents: nat)

  function Plus(a: Totals, b: Totals): Totals {
    Totals(a.requests + b.requests, a.bytes + b.bytes, a.cents + b.cents)
  }

  /** The totals with one more job, if the query selects it. */
  function Credited(q: Query, t: Totals, u: Upsert): Totals {
    if Covered(q, u) then Plus(t, Totals(1, u.bytes, CostCents(u.bytes))) else t
  }

  /** What the endpoint reports: the sums over the selected monthly rows. */
  function Summary(q: Query, rows: seq<UsageRow>): Totals {
    if rows == [] then Totals(0, 0, 0)
    else
      var rest, r := Summary(q, rows[1..]), rows[0];
      if Selects(q, r.app, r.month) then Plus(Totals(r.requests, r.bytes, r.cents), rest) else rest
  }

  function Stored(history: seq<Upsert>): seq<UsageRow> {
    if history == [] then [] else Upserted(Stored(history[..|history| - 1]), history[|history| - 1])
  }

  /** The totals of the jobs themselves, straight from the history. */
  function HistoryTotals(q: Query, history: seq<Upsert>): Totals {
    if history == [] then Totals(0, 0, 0)
    else
      var before, u := HistoryTotals(q, history[..|history| - 1]), history[|history| - 1];
      Credited(q, before, u)
  }

  /** Selected jobs with a non-empty body. */
  function NonEmpty(q: Query, history: seq<Upsert>): nat {
    if history == [] then 0
    else
      var u := history[|history| - 1];
      NonEmpty(q, history[..|history| - 1]) + (if Covered(q, u) && u.bytes > 0 then 1 else 0)
  }

  lemma {:induction false} UpsertAddsOnce(q: Query, rows: seq<UsageRow>, u: Upsert)
    ensures Summary(q, Upserted(rows, u))
            == Credited(q, Summary(q, rows), u)
  {
    if rows == [] {
      assert Upserted(rows, u)[1..] == [];
    } else if rows[0].app == u.app && rows[0].month == u.month {
      assert Upserted(rows, u)[1..] == rows[1..];
    } else {
      assert Upserted(rows, u)[1..] == Upserted(rows[1..], u);
      UpsertAddsOnce(q, rows[1..], u);
    }
  }

  /** Every summary, over any months, equals the totals of the selected part of the history. */
  lemma {:induction false} SummaryIsHistory(q: Query, history: seq<Upsert>)
    ensures Summary(q, Stored(history)) == HistoryTotals(q, history)
  {
    if history != [] {
      SummaryIsHistory(q, history[..|history| - 1]);
      UpsertAddsOnce(q, Stored(history[..|history| - 1]), history[|history| - 1]);
    }
  }

  /** The table keeps one row per application and month. */
  lemma {:induction false} UpsertKeepsUnique(rows: seq<UsageRow>, u: Upsert)
    requires UniqueKeys(rows)
    ensures UniqueKeys(Upserted(rows, u))
    ensures forall r :: r in Upserted(rows, u) ==>
              || (r.app == u.app && r.month == u.month)
              || exists i :: 0 <= i < |rows| && rows[i].app == r.app && rows[i].month == r.month
  {
    if rows != [] && !(rows[0].app == u.app && rows[0].month == u.month) {
      UpsertKeepsUnique(rows[1..], u);
      var rest := Upserted(rows[1..], u);
      forall r | r in rest ensures r.app != rows[0].app || r.month != rows[0].month {
        if !(r.app == u.app && r.month == u.month) {
          var i :| 0 <= i < |rows[1..]| && rows[1..][i].app == r.app && rows[1..][i].month == r.month;
        }
      }
      forall r | r in Upserted(rows, u) && !(r.app == u.app && r.month == u.month)
        ensures exists i :: 0 <= i < |rows| && rows[i].app == r.app && rows[i].month == r.month
      {
        if r in rest {
          var i :| 0 <= i < |rows[1..]| && rows[1..][i].app == r.app && rows[1..][i].month == r.month;
          assert rows[i + 1] == rows[1..][i];
        }
      }
    }
  }

  /** The usage_counters table of the worker's database. */
  class UsageCounters {
    var rows: seq<UsageRow>

    constructor ()
      ensures rows == []
    {
      rows := [];
    }

    /**
      A committed upsert adds one request, its bytes and its cost to exactly the summaries that select it; a failed
      one nothing.
     */
    method UpsertUsage(u: Upsert, committed: bool)
      requires UniqueKeys(rows)
      modifies this
      ensures UniqueKeys(rows)
      ensures !committed ==> rows == old(rows)
      ensures committed ==> forall q :: Summary(q, rows) == Credited(q, Summary(q, old(rows)), u)
    {
      if committed {
        UpsertKeepsUnique(rows, u);
        forall q { UpsertAddsOnce(q, rows, u); }
        rows := Upserted(rows, u);
      }
    }
  }

  lemma {:induction false} StoredIsUnique(history: seq<Upsert>)
    ensures UniqueKeys(Stored(history))
  {
    if history != [] {
      StoredIsUnique(history[..|history| - 1]);
      UpsertKeepsUnique(Stored(history[..|history| - 1]), history[|history| - 1]);
    }
  }

  lemma ExactAdds(a: nat, b: nat)
    ensures ExactCents(a + b) == ExactCents(a) + ExactCents(b)
  {
  }

  /**
    Metering bound: the reported cents are at least the exact price of the reported bytes and exceed it by less than one
    cent per non-empty request (and not at all when there is none).
   */
  lemma {:induction false} CentsWithinOnePerRequest(q: Query, history: seq<Upsert>)
    ensures var t, n := Summary(q, Stored(history)), NonEmpty(q, history);
            && ExactCents(t.bytes) <= t.cents as real <= ExactCents(t.bytes) + n as real
            && (n > 0 ==> t.cents as real < ExactCents(t.bytes) + n as real)
  {
    SummaryIsHistory(q, history);
    if history != [] {
      var init, u := history[..|history| - 1], history[|history| - 1];
      CentsWithinOnePerRequest(q, init);
      SummaryIsHistory(q, init);
      ExactAdds(HistoryTotals(q, init).bytes, u.bytes);
    }
  }
}

/** The billing usage summary: one pass over the organization's billing
    events that counts them, adds up their prices and totals the quantity
    per event type. */
module Usage {
  import opened Common
  import opened Records

  /** The three columns of a `cap_billing_events` row that the summary selects. */
  datatype BillingRow = BillingRow(eventType: BillingEventType, quantity: int, totalPriceFcfa: int)

  datatype UsageSummary = UsageSummary(totalEvents: nat, totalCostFcfa: int, byType: map<BillingEventType, int>)

  const AllEventTypes: seq<BillingEventType> :=
    [ScoringRequestEvent, ApiCall, BatchUpload, Export, PlanChange, Payment, Refund]

  // The specification folds consume the rows from the end, as the loop does.

  function TotalCost(rows: seq<BillingRow>): int {
    if rows == [] then 0 else TotalCost(rows[..|rows| - 1]) + rows[|rows| - 1].totalPriceFcfa
  }

  function TotalQuantity(rows: seq<BillingRow>): int {
    if rows == [] then 0 else TotalQuantity(rows[..|rows| - 1]) + rows[|rows| - 1].quantity
  }

  function QuantityOfType(rows: seq<BillingRow>, t: BillingEventType): int {
    if rows == [] then 0
    else QuantityOfType(rows[..|rows| - 1], t) + (if rows[|rows| - 1].eventType == t then rows[|rows| - 1].quantity else 0)
  }

  /** The event types that occur in the rows. */
  function EventTypes(rows: seq<BillingRow>): set<BillingEventType> {
    if rows == [] then {} else EventTypes(rows[..|rows| - 1]) + {rows[|rows| - 1].eventType}
  }

  /** A type is among EventTypes exactly when some row has it. */
  lemma {:induction false} EventTypesAreTheOccurringTypes(rows: seq<BillingRow>, t: BillingEventType)
    ensures t in EventTypes(rows) <==> exists i :: 0 <= i < |rows| && rows[i].eventType == t
  {
    if rows != [] {
      var init := rows[..|rows| - 1];
      EventTypesAreTheOccurringTypes(init, t);
      if t in EventTypes(init) {
        var i :| 0 <= i < |init| && init[i].eventType == t;
        assert rows[i] == init[i];
      }
      if exists i :: 0 <= i < |rows| && rows[i].eventType == t {
        var i :| 0 <= i < |rows| && rows[i].eventType == t;
        if i < |init| { assert init[i] == rows[i]; }
      }
    }
  }

  /** The loop of `getUsageSummary`: `by_type` gets a key exactly for the
      types that occur, holding the total quantity of that type, and
      `total_cost_fcfa` is the sum of the prices. */
  method SummarizeUsage(rows: seq<BillingRow>) returns (s: UsageSummary)
    ensures s.totalEvents == |rows|
    ensures s.totalCostFcfa == TotalCost(rows)
    ensures s.byType.Keys == EventTypes(rows)
    ensures forall t :: t in s.byType ==> s.byType[t] == QuantityOfType(rows, t)
  {
    var byType: map<BillingEventType, int> := map[];
    var totalCost := 0;
    for i := 0 to |rows|
      invariant totalCost == TotalCost(rows[..i])
      invariant byType.Keys == EventTypes(rows[..i])
      invariant forall t :: t in byType ==> byType[t] == QuantityOfType(rows[..i], t)
    {
      var row := rows[i];
      ghost var next := rows[..i + 1];
      assert next[..|next| - 1] == rows[..i] && next[|next| - 1] == row;
      if row.eventType !in byType {
        AbsentTypeHasNoQuantity(rows[..i], row.eventType);
      }
      byType := byType[row.eventType := (if row.eventType in byType then byType[row.eventType] else 0) + row.quantity];
      totalCost := totalCost + row.totalPriceFcfa;
    }
    assert rows[..|rows|] == rows;
    s := UsageSummary(|rows|, totalCost, byType);
  }

  /** `getUsageSummary` once the query has answered; a failed query gives
      the all-zero summary with no types. */
  method GetUsageSummary(data: Option<seq<BillingRow>>) returns (s: UsageSummary)
    ensures data.None? ==> s == UsageSummary(0, 0, map[])
    ensures data.Some? ==> s.totalEvents == |data.value| && s.totalCostFcfa == TotalCost(data.value)
    ensures data.Some? ==> s.byType.Keys == EventTypes(data.value)
    ensures data.Some? ==> forall t :: t in s.byType ==> s.byType[t] == QuantityOfType(data.value, t)
  {
    if data.None? {
      return UsageSummary(0, 0, map[]);
    }
    s := SummarizeUsage(data.value);
  }

  function SumOverTypes(rows: seq<BillingRow>, ts: seq<BillingEventType>): int {
    if ts == [] then 0 else QuantityOfType(rows, ts[0]) + SumOverTypes(rows, ts[1..])
  }

  /** Adding one row to the end adds its quantity once to a sum over
      distinct types that include its type. */
  lemma {:induction false} SumOverTypesStep(rows: seq<BillingRow>, ts: seq<BillingEventType>)
    requires rows != []
    requires forall i, j :: 0 <= i < j < |ts| ==> ts[i] != ts[j]
    ensures SumOverTypes(rows, ts) == SumOverTypes(rows[..|rows| - 1], ts)
      + (if rows[|rows| - 1].eventType in ts then rows[|rows| - 1].quantity else 0)
  {
    if ts != [] {
      SumOverTypesStep(rows, ts[1..]);
      assert rows[|rows| - 1].eventType in ts <==>
        rows[|rows| - 1].eventType == ts[0] || rows[|rows| - 1].eventType in ts[1..];
    }
  }

  lemma {:induction false} NothingOverTypes(ts: seq<BillingEventType>)
    ensures SumOverTypes([], ts) == 0
  {
    if ts != [] {
      NothingOverTypes(ts[1..]);
    }
  }

  /** The per-type totals split the total quantity: summed over every event
      type they give the quantity of all rows. */
  lemma {:induction false} ByTypePartitionsQuantity(rows: seq<BillingRow>)
    ensures SumOverTypes(rows, AllEventTypes) == TotalQuantity(rows)
  {
    if rows == [] {
      NothingOverTypes(AllEventTypes);
    } else {
      ByTypePartitionsQuantity(rows[..|rows| - 1]);
      assert forall i, j :: 0 <= i < j < |AllEventTypes| ==> AllEventTypes[i] != AllEventTypes[j];
      SumOverTypesStep(rows, AllEventTypes);
      var t := rows[|rows| - 1].eventType;
      assert t in AllEventTypes by {
        match t
        case ScoringRequestEvent => assert AllEventTypes[0] == t;
        case ApiCall => assert AllEventTypes[1] == t;
        case BatchUpload => assert AllEventTypes[2] == t;
        case Export => assert AllEventTypes[3] == t;
        case PlanChange => assert AllEventTypes[4] == t;
        case Payment => assert AllEventTypes[5] == t;
        case Refund => assert AllEventTypes[6] == t;
      }
    }
  }

  /** A type that occurs in no row contributes nothing. */
  lemma {:induction false} AbsentTypeHasNoQuantity(rows: seq<BillingRow>, t: BillingEventType)
    requires t !in EventTypes(rows)
    ensures QuantityOfType(rows, t) == 0
  {
    if rows != [] {
      var init := rows[..|rows| - 1];
      assert EventTypes(rows) == EventTypes(init) + {rows[|rows| - 1].eventType};
      AbsentTypeHasNoQuantity(init, t);
    }
  }
}

/** Scoring requests: the placeholder scoring engine's integer part (score,
    risk category, recommended term and maximum amount) and the POST
    handler, which validates its input and then writes to three tables in a
    fixed order. */
module Scoring {
  import opened Common
  import opened Records

  const ScoreFloor := 300
  const ScoreSpan := 600
  const FcfaPerPoint := 5000
  const ScoringPriceFcfa := 500
  const ModelVersion := "v1.0-demo"
  const DefaultPriority := "normal"
  const DataSources: seq<string> := ["momo", "airtime"]
  const BillingPrefix := "Scoring: "

  // ------------------------------------------------------------ classification

  /** The threshold chain of `simulateScore`. */
  function RiskFor(score: int): RiskCategory {
    if score >= 800 then VeryLow
    else if score >= 650 then Low
    else if score >= 450 then Medium
    else if score >= 300 then High
    else VeryHigh
  }

  /** The band of scores each category stands for, as closed-open
      intervals, written independently of the chain. */
  predicate InBand(score: int, c: RiskCategory) {
    match c
    case VeryLow => 800 <= score
    case Low => 650 <= score < 800
    case Medium => 450 <= score < 650
    case High => 300 <= score < 450
    case VeryHigh => score < 300
  }

  /** The chain puts a score in a category exactly when the score lies in
      that category's band, so the bands cover every score once. */
  lemma RiskForMatchesBands(score: int, c: RiskCategory)
    ensures RiskFor(score) == c <==> InBand(score, c)
  {
  }

  /** A higher score never means a higher risk. */
  lemma RiskNonIncreasing(s1: int, s2: int)
    requires s1 <= s2
    ensures RiskFor(s2).Rank() <= RiskFor(s1).Rank()
  {
  }

  /** The score drawn for a request: `floor(random * 600 + 300)`, where
      `draw` is `floor(random * 600)`. */
  function GeneratedScore(draw: int): (score: int)
    requires 0 <= draw < ScoreSpan
    ensures ScoreFloor <= score < ScoreFloor + ScoreSpan
  {
    ScoreFloor + draw
  }

  /** A generated score is never classed very high risk. */
  lemma GeneratedScoreNeverVeryHigh(draw: int)
    requires 0 <= draw < ScoreSpan
    ensures RiskFor(GeneratedScore(draw)) != VeryHigh
    ensures RiskFor(GeneratedScore(draw)).Rank() <= High.Rank()
  {
  }

  /** The recommended term in months. */
  function TermMonths(score: int): (months: int)
    ensures months in {3, 6, 12}
  {
    if score >= 600 then 12 else if score >= 400 then 6 else 3
  }

  /** A higher score never shortens the recommended term. */
  lemma TermNonDecreasing(s1: int, s2: int)
    requires s1 <= s2
    ensures TermMonths(s1) <= TermMonths(s2)
  {
  }

  /** The recommended maximum amount in FCFA: `Math.round(score * 5000)`,
      which for an integer score is the product itself. */
  function MaxAmount(score: int): (amount: int)
    ensures score >= 0 ==> amount >= 0
    ensures amount % FcfaPerPoint == 0
  {
    score * FcfaPerPoint
  }

  /** The maximum amount grows strictly with the score. */
  lemma MaxAmountIncreasing(s1: int, s2: int)
    requires s1 < s2
    ensures MaxAmount(s1) + FcfaPerPoint <= MaxAmount(s2)
  {
  }

  /** The integer fields of a simulated score. */
  datatype ScoreResult = ScoreResult(
    scoreValue: int,
    riskCategory: RiskCategory,
    maxRecommendedAmount: int,
    recommendedTermMonths: int)

  function SimulateScore(draw: int): (r: ScoreResult)
    requires 0 <= draw < ScoreSpan
    ensures r.scoreValue == ScoreFloor + draw
    ensures InBand(r.scoreValue, r.riskCategory) && r.riskCategory != VeryHigh
    ensures r.maxRecommendedAmount == r.scoreValue * FcfaPerPoint
    ensures r.recommendedTermMonths in {3, 6, 12}
  {
    var score := GeneratedScore(draw);
    RiskForMatchesBands(score, RiskFor(score));
    ScoreResult(score, RiskFor(score), MaxAmount(score), TermMonths(score))
  }

  // ------------------------------------------------------------ the tables

  /** A `cap_scoring_requests` row (the payload columns left out). */
  datatype RequestRecord = RequestRecord(
    id: string,
    orgId: string,
    requestedBy: string,
    subjectName: Option<string>,
    subjectPhone: Option<string>,
    subjectIdNumber: Option<string>,
    dataSources: seq<string>,
    priority: string,
    status: ScoringStatus,
    processingTimeMs: Option<nat>)

  /** A `cap_scores` row. */
  datatype ScoreRecord = ScoreRecord(requestId: string, orgId: string, result: ScoreResult, modelVersion: string)

  /** A `cap_billing_events` row. */
  datatype BillingRecord = BillingRecord(
    orgId: string,
    eventType: BillingEventType,
    quantity: int,
    unitPriceFcfa: int,
    totalPriceFcfa: int,
    description: string)

  /** One write the handler issues, in the order it issues them. */
  datatype Write = InsertRequest(id: string) | UpdateStatus(id: string) | InsertScore(requestId: string) | InsertBilling(orgId: string)

  datatype ScoringResponse =
    | Unauthenticated
    | MissingOrg
    | MissingSubject
    | RequestFailed
    | Submitted(request: RequestRecord, score: Option<ScoreRecord>)
  {
    function Status(): int {
      match this
      case Unauthenticated => 401
      case MissingOrg => 400
      case MissingSubject => 400
      case RequestFailed => 500
      case Submitted(_, _) => 201
    }
  }

  /** The billing event recorded for one request: one unit at the scoring
      price, described by the subject's name, or else its phone. */
  function BillingFor(orgId: string, subjectName: Option<string>, subjectPhone: Option<string>): (b: BillingRecord)
    ensures b.quantity == 1 && b.unitPriceFcfa == ScoringPriceFcfa && b.totalPriceFcfa == b.quantity * b.unitPriceFcfa
    ensures b.eventType == ScoringRequestEvent && b.orgId == orgId
    ensures BillingPrefix <= b.description
    ensures Truthy(subjectName) ==> b.description == BillingPrefix + subjectName.value
    ensures !Truthy(subjectName) && Truthy(subjectPhone) ==> b.description == BillingPrefix + subjectPhone.value
  {
    BillingRecord(orgId, ScoringRequestEvent, 1, ScoringPriceFcfa, ScoringPriceFcfa,
                  BillingPrefix + OrElse(subjectName, OrElse(subjectPhone, "")))
  }

  /** The request row as the handler submits it: empty subject fields
      become null, the data sources are fixed, the priority defaults to
      "normal", and the row starts pending with no processing time. */
  function NewRequest(
    id: string, orgId: string, requestedBy: string,
    subjectName: Option<string>, subjectPhone: Option<string>, subjectIdNumber: Option<string>,
    priority: Option<string>): RequestRecord
  {
    RequestRecord(id, orgId, requestedBy, TruthyOrNull(subjectName), TruthyOrNull(subjectPhone),
      TruthyOrNull(subjectIdNumber), DataSources, OrElse(priority, DefaultPriority), Pending, None)
  }

  class ScoringStore {
    var requests: map<string, RequestRecord>
    var scores: seq<ScoreRecord>
    var billing: seq<BillingRecord>
    /** Every write issued against the three tables, successful or not. */
    ghost var writes: seq<Write>

    /** Rows are filed under their own id, and every score belongs to a
        stored request. */
    ghost predicate Valid()
      reads this
    {
      && (forall id :: id in requests ==> requests[id].id == id)
      && (forall i :: 0 <= i < |scores| ==> scores[i].requestId in requests)
    }

    constructor ()
      ensures Valid() && requests == map[] && scores == [] && billing == [] && writes == []
    {
      requests := map[];
      scores := [];
      billing := [];
      writes := [];
    }

    /** `createScoringRequest`: the row starts out pending. The store
        refuses when `ok` is false or the id it chose is taken. */
    method CreateScoringRequest(r: RequestRecord, ok: bool) returns (created: Option<RequestRecord>)
      requires Valid()
      modifies this
      ensures Valid()
      ensures created.Some? <==> ok && r.id !in old(requests)
      ensures created.Some? ==> created.value == r.(status := Pending) && requests == old(requests)[r.id := created.value]
      ensures created.None? ==> requests == old(requests)
      ensures scores == old(scores) && billing == old(billing)
      ensures writes == old(writes) + [InsertRequest(r.id)]
    {
      writes := writes + [InsertRequest(r.id)];
      if !ok || r.id in requests {
        return None;
      }
      var row := r.(status := Pending);
      requests := requests[r.id := row];
      created := Some(row);
    }

    /** The status update: the request becomes completed with its timing;
        a failure changes nothing and is not reported. */
    method CompleteRequest(id: string, elapsedMs: nat, ok: bool)
      requires Valid()
      modifies this
      ensures Valid()
      ensures requests == if ok && id in old(requests)
        then old(requests)[id := old(requests)[id].(status := Completed, processingTimeMs := Some(elapsedMs))]
        else old(requests)
      ensures scores == old(scores) && billing == old(billing)
      ensures writes == old(writes) + [UpdateStatus(id)]
    {
      writes := writes + [UpdateStatus(id)];
      if ok && id in requests {
        requests := requests[id := requests[id].(status := Completed, processingTimeMs := Some(elapsedMs))];
      }
    }

    method InsertScoreRow(s: ScoreRecord, ok: bool) returns (inserted: Option<ScoreRecord>)
      requires Valid() && s.requestId in requests
      modifies this
      ensures Valid()
      ensures inserted == (if ok then Some(s) else None)
      ensures scores == if ok then old(scores) + [s] else old(scores)
      ensures requests == old(requests) && billing == old(billing)
      ensures writes == old(writes) + [InsertScore(s.requestId)]
    {
      writes := writes + [InsertScore(s.requestId)];
      if ok {
        scores := scores + [s];
        inserted := Some(s);
      } else {
        inserted := None;
      }
    }

    method InsertBillingRow(b: BillingRecord, ok: bool)
      requires Valid()
      modifies this
      ensures Valid()
      ensures billing == if ok then old(billing) + [b] else old(billing)
      ensures requests == old(requests) && scores == old(scores)
      ensures writes == old(writes) + [InsertBilling(b.orgId)]
    {
      writes := writes + [InsertBilling(b.orgId)];
      if ok {
        billing := billing + [b];
      }
    }

    /** The part of POST after validation: insert the request, then, if
        that succeeded, complete it, insert the score and record the
        billing event, ignoring the failures of those three writes. */
    method Submit(
      userId: string, orgId: string,
      subjectName: Option<string>, subjectPhone: Option<string>, subjectIdNumber: Option<string>,
      priority: Option<string>, freshId: string, draw: int, elapsedMs: nat,
      requestOk: bool, statusOk: bool, scoreOk: bool, billingOk: bool)
      returns (resp: ScoringResponse)
      requires Valid()
      requires 0 <= draw < ScoreSpan
      modifies this
      ensures Valid()
      ensures resp == RequestFailed || resp.Submitted?
      ensures resp == RequestFailed <==> !(requestOk && freshId !in old(requests))
      ensures resp == RequestFailed ==>
        requests == old(requests) && scores == old(scores) && billing == old(billing)
        && writes == old(writes) + [InsertRequest(freshId)]
      ensures resp.Submitted? ==>
        var inserted := NewRequest(freshId, orgId, userId, subjectName, subjectPhone, subjectIdNumber, priority);
        var score := ScoreRecord(freshId, orgId, SimulateScore(draw), ModelVersion);
        && writes == old(writes) + [InsertRequest(freshId), UpdateStatus(freshId), InsertScore(freshId), InsertBilling(orgId)]
        && requests == old(requests)[freshId :=
             if statusOk then inserted.(status := Completed, processingTimeMs := Some(elapsedMs)) else inserted]
        && scores == (if scoreOk then old(scores) + [score] else old(scores))
        && billing == (if billingOk then old(billing) + [BillingFor(orgId, subjectName, subjectPhone)] else old(billing))
        && resp.request == inserted.(status := Completed)
        && resp.score == (if scoreOk then Some(score) else None)
    {
      var input := NewRequest(freshId, orgId, userId, subjectName, subjectPhone, subjectIdNumber, priority);
      var request := CreateScoringRequest(input, requestOk);
      if request.None? {
        return RequestFailed;
      }
      assert request.value == input && requests == old(requests)[freshId := input];
      var result := SimulateScore(draw);
      CompleteRequest(freshId, elapsedMs, statusOk);
      ghost var completed := requests;
      assert freshId in completed;
      var score := InsertScoreRow(ScoreRecord(freshId, orgId, result, ModelVersion), scoreOk);
      InsertBillingRow(BillingFor(orgId, subjectName, subjectPhone), billingOk);
      assert requests == completed;
      resp := Submitted(input.(status := Completed), score);
    }

    /** POST. `freshId` is the id the store assigns, `draw` the random part
        of the score, `elapsedMs` the measured processing time, and the
        four flags say which of the writes the store accepts. Input that
        fails validation writes nothing; only a failed request insert is
        reported as an error. */
    method Post(
      user: Option<string>, orgId: Option<string>,
      subjectName: Option<string>, subjectPhone: Option<string>, subjectIdNumber: Option<string>,
      priority: Option<string>, freshId: string, draw: int, elapsedMs: nat,
      requestOk: bool, statusOk: bool, scoreOk: bool, billingOk: bool)
      returns (resp: ScoringResponse)
      requires Valid()
      requires 0 <= draw < ScoreSpan
      modifies this
      ensures Valid()
      ensures user.None? ==> resp == Unauthenticated
      ensures user.Some? && !Truthy(orgId) ==> resp == MissingOrg
      ensures user.Some? && Truthy(orgId) && !Truthy(subjectPhone) && !Truthy(subjectName) ==> resp == MissingSubject
      ensures user.Some? && Truthy(orgId) && (Truthy(subjectPhone) || Truthy(subjectName)) ==>
        resp.RequestFailed? || resp.Submitted?
      ensures resp.Unauthenticated? || resp.MissingOrg? || resp.MissingSubject? ==>
        requests == old(requests) && scores == old(scores) && billing == old(billing) && writes == old(writes)
      ensures resp.RequestFailed? || resp.Submitted? ==>
        && user.Some? && Truthy(orgId) && (Truthy(subjectPhone) || Truthy(subjectName))
        && (resp.RequestFailed? <==> !(requestOk && freshId !in old(requests)))
      ensures resp.RequestFailed? ==>
        requests == old(requests) && scores == old(scores) && billing == old(billing)
        && writes == old(writes) + [InsertRequest(freshId)]
      ensures resp.Submitted? ==>
        var inserted := NewRequest(freshId, orgId.value, user.value, subjectName, subjectPhone, subjectIdNumber, priority);
        var score := ScoreRecord(freshId, orgId.value, SimulateScore(draw), ModelVersion);
        && writes == old(writes) + [InsertRequest(freshId), UpdateStatus(freshId), InsertScore(freshId), InsertBilling(orgId.value)]
        && requests == old(requests)[freshId :=
             if statusOk then inserted.(status := Completed, processingTimeMs := Some(elapsedMs)) else inserted]
        && scores == (if scoreOk then old(scores) + [score] else old(scores))
        && billing == (if billingOk then old(billing) + [BillingFor(orgId.value, subjectName, subjectPhone)] else old(billing))
        && resp.request == inserted.(status := Completed)
        && resp.score == (if scoreOk then Some(score) else None)
    {
      if user.None? {
        return Unauthenticated;
      }
      if !Truthy(orgId) {
        return MissingOrg;
      }
      if !Truthy(subjectPhone) && !Truthy(subjectName) {
        return MissingSubject;
      }
      resp := Submit(user.value, orgId.value, subjectName, subjectPhone, subjectIdNumber, priority,
                     freshId, draw, elapsedMs, requestOk, statusOk, scoreOk, billingOk);
    }
  }
}

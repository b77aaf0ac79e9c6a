/** The enumerations of the `cap_` schema that more than one component uses,
    with the spelling each value has in the store. */
module Records {

  /** Risk categories, listed from least to most risky. */
  datatype RiskCategory = VeryLow | Low | Medium | High | VeryHigh {
    function Name(): string {
      match this
      case VeryLow => "very_low"
      case Low => "low"
      case Medium => "medium"
      case High => "high"
      case VeryHigh => "very_high"
    }

    /** Position in the risk order: 0 for very_low up to 4 for very_high. */
    function Rank(): (k: nat)
      ensures k <= 4
    {
      match this
      case VeryLow => 0
      case Low => 1
      case Medium => 2
      case High => 3
      case VeryHigh => 4
    }
  }

  /** The five categories in the order the dashboard lists them. */
  const RiskCategories: seq<RiskCategory> := [VeryLow, Low, Medium, High, VeryHigh]

  datatype ScoringStatus = Pending | Processing | Completed | Failed | Expired {
    function Name(): string {
      match this
      case Pending => "pending"
      case Processing => "processing"
      case Completed => "completed"
      case Failed => "failed"
      case Expired => "expired"
    }
  }

  datatype BillingEventType =
    | ScoringRequestEvent | ApiCall | BatchUpload | Export | PlanChange | Payment | Refund

  datatype TransactionType = Send | Receive | PaymentTx | Withdrawal | Deposit | Airtime | Bill | Merchant
}

/** The two DynamoDB tables the order handlers share. */
module Store {
  import opened Wrappers
  import opened JsValue
  import opened Schema

  /** The order table's partition key attribute. */
  const OrderKey := "orderId"

  class Tables {
    /** The partner table, keyed by partner id. */
    var partners: map<string, PartnerRecord>
    /** The order table, keyed by order id; each entry is the stored document. */
    var orders: map<string, Item>

    /** Every stored order carries its own key as its `orderId` attribute. */
    ghost predicate Valid()
      reads this
    {
      forall id :: id in orders ==> OrderKey in orders[id] && orders[id][OrderKey] == Str(id)
    }

    constructor (partners: map<string, PartnerRecord>)
      ensures Valid()
      ensures this.partners == partners && orders == map[]
    {
      this.partners := partners;
      orders := map[];
    }
  }
}

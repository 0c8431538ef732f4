/**
 * The VIP plan detail screen (src/pages/User/VipDetails.jsx): the plan named by the route
 * is fetched, checked, and shown with six fixed feature cards followed by one card per
 * additional benefit.
 */
module VipDetails {
  import opened Wrappers
  import opened JsValues
  import Http
  import VipPlan

  /**
   * This screen's `parseJsonField`: like the list screen's, but whatever is not an array
   * after parsing becomes `[]`, so the result is always a list.
   */
  function ParseJsonField(field: JsValue, parse: JsonParse): seq<JsValue> {
    if !Truthy(field) then []
    else if field.Arr? then field.items
    else
      var parsed := if field.Str? then parse(field.s) else Success(field);
      match parsed
      case Success(Arr(items)) => items
      case _ => []
  }

  /**
   * The two screens decode a field alike wherever the list screen's result is an array, and
   * this screen gives `[]` exactly where the list screen lets a non-array through.
   */
  lemma ParseJsonFieldAgrees(field: JsValue, parse: JsonParse)
    ensures VipPlan.ParseJsonField(field, parse).Arr? ==> ParseJsonField(field, parse) == VipPlan.ParseJsonField(field, parse).items
    ensures !VipPlan.ParseJsonField(field, parse).Arr? ==> ParseJsonField(field, parse) == []
  {
  }

  /** A feature card: a title (a benefit's own value, for benefit cards) and a description. */
  datatype Feature = Feature(title: JsValue, description: string)

  const BenefitDescription := "Included as part of your VIP plan benefits."

  /** The OTT card's text: the first two platforms by name, or a generic line when there are none. */
  function OttDescription(ott: seq<JsValue>): string {
    if |ott| > 0 then "Free access to " + Join(ott[..if |ott| < 2 then |ott| else 2], ", ") + " and more premium platforms."
    else "OTT subscriptions included with this plan."
  }

  /**
   * The OTT card names at most two platforms: with more, the text is that of the first two
   * alone; with none, it is the generic line.
   */
  lemma OttDescriptionFirstTwo(ott: seq<JsValue>)
    requires |ott| >= 2
    ensures OttDescription(ott) == OttDescription(ott[..2])
    ensures OttDescription([]) == "OTT subscriptions included with this plan."
  {
    assert ott[..2][..2] == ott[..2];
  }

  /** The six cards every plan shows, in order. */
  function FixedFeatures(planData: JsValue, ott: seq<JsValue>): (r: seq<Feature>)
    ensures |r| == 6
  {
    [
      Feature(Str("Lightning Fast Speed"),
        ToString(Or(Get(planData, "speed_mbps"), Num(0))) + " Mbps speed for seamless streaming, gaming, and browsing."),
      Feature(Str("Unlimited Data"),
        ToString(Or(Get(planData, "data_policy"), Str("Data included"))) + " with no restrictions. Stream and download freely."),
      Feature(Str("OTT Subscriptions"), OttDescription(ott)),
      Feature(Str("24/7 Priority Support"), "Dedicated VIP support team available round the clock for assistance."),
      Feature(Str("Secure Connection"), "Bank-grade security with encrypted connection for safe browsing."),
      Feature(Str("Quick Installation"), "Professional setup within 24-48 hours at your convenience.")
    ]
  }

  /**
   * The feature list: the six fixed cards, then, through the `forEach` push loop, one card
   * per additional benefit in the order the plan lists them.
   */
  method BuildFeatures(planData: JsValue, parse: JsonParse) returns (features: seq<Feature>)
    ensures |features| == 6 + |ParseJsonField(Get(planData, "additional_benefits"), parse)|
    ensures features[..6] == FixedFeatures(planData, ParseJsonField(Get(planData, "ott_platforms"), parse))
    ensures forall i :: 6 <= i < |features| ==>
      features[i] == Feature(ParseJsonField(Get(planData, "additional_benefits"), parse)[i - 6], BenefitDescription)
  {
    var ottPlatforms := ParseJsonField(Get(planData, "ott_platforms"), parse);
    var additionalBenefits := ParseJsonField(Get(planData, "additional_benefits"), parse);
    features := FixedFeatures(planData, ottPlatforms);
    if |additionalBenefits| > 0 {
      var i := 0;
      while i < |additionalBenefits|
        invariant 0 <= i <= |additionalBenefits|
        invariant |features| == 6 + i
        invariant features[..6] == FixedFeatures(planData, ottPlatforms)
        invariant forall j :: 6 <= j < |features| ==> features[j] == Feature(additionalBenefits[j - 6], BenefitDescription)
      {
        features := features + [Feature(additionalBenefits[i], BenefitDescription)];
        i := i + 1;
      }
    }
  }

  /** The price shown, `planData.price || '599'`. */
  function DisplayPrice(planData: JsValue): JsValue {
    Or(Get(planData, "price"), Str("599"))
  }

  /** The speed shown, `planData.speed_mbps || 0`. */
  function DisplaySpeed(planData: JsValue): JsValue {
    Or(Get(planData, "speed_mbps"), Num(0))
  }

  /** The data allowance shown, `planData.data_policy || 'Unlimited'`. */
  function DisplayData(planData: JsValue): JsValue {
    Or(Get(planData, "data_policy"), Str("Unlimited"))
  }

  /** The validity shown, `planData.validity_days || 30`. */
  function DisplayValidity(planData: JsValue): JsValue {
    Or(Get(planData, "validity_days"), Num(30))
  }

  /**
   * A shown value is the plan's own when that is truthy and the default otherwise, so a
   * plan without the fields shows price '599', speed 0, data 'Unlimited' and 30 days.
   */
  lemma DisplayDefaults(planData: JsValue)
    ensures Truthy(Get(planData, "price")) ==> DisplayPrice(planData) == Get(planData, "price")
    ensures !Truthy(Get(planData, "price")) ==> DisplayPrice(planData) == Str("599")
    ensures Truthy(Get(planData, "validity_days")) ==> DisplayValidity(planData) == Get(planData, "validity_days")
    ensures !Truthy(Get(planData, "validity_days")) ==> DisplayValidity(planData) == Num(30)
    ensures Truthy(Get(planData, "speed_mbps")) ==> DisplaySpeed(planData) == Get(planData, "speed_mbps")
    ensures !Truthy(Get(planData, "speed_mbps")) ==> DisplaySpeed(planData) == Num(0)
    ensures Truthy(Get(planData, "data_policy")) ==> DisplayData(planData) == Get(planData, "data_policy")
    ensures !Truthy(Get(planData, "data_policy")) ==> DisplayData(planData) == Str("Unlimited")
    ensures Obj(map[]) == planData ==>
      DisplayPrice(planData) == Str("599") && DisplaySpeed(planData) == Num(0)
      && DisplayData(planData) == Str("Unlimited") && DisplayValidity(planData) == Num(30)
  {
  }

  /** The detail screen's state. */
  class VipDetailsPage {
    var planData: JsValue
    var loading: bool
    var error: Option<string>

    /** A plan is only ever stored when it is truthy and has a truthy `plan_name`. */
    predicate Valid()
      reads this
    {
      planData.Null? || (Truthy(planData) && Truthy(Get(planData, "plan_name")))
    }

    constructor()
      ensures planData == Null && loading && error == None && Valid()
    {
      planData := Null;
      loading := true;
      error := None;
    }

    /**
     * The effect run for the route's `id` ("" when the route has none): without an id the
     * error is set and loading ends with no request; with one, loading starts, the error is
     * cleared and the request goes out.
     */
    method Open(id: string) returns (fetching: bool)
      requires Valid()
      modifies this
      ensures fetching <==> id != ""
      ensures !fetching ==> error == Some("No plan ID provided") && !loading
      ensures fetching ==> error == None && loading
      ensures planData == old(planData) && Valid()
    {
      if id != "" {
        loading := true;
        error := None;
        fetching := true;
      } else {
        error := Some("No plan ID provided");
        loading := false;
        fetching := false;
      }
    }

    /**
     * The request's outcome: a thrown request, a response that is not ok, a body that does
     * not parse, and a body that is falsy or has no truthy `plan_name` each set an error and
     * keep the stored plan; a good body is stored. Loading ends either way.
     */
    method FinishFetch(reply: Http.Reply)
      requires Valid()
      modifies this
      ensures !loading && Valid()
      ensures reply.Thrown? ==> error == Some(reply.message) && planData == old(planData)
      ensures reply.Answered? && !reply.ok ==>
        error == Some("Failed to fetch plan: " + IntToString(reply.status)) && planData == old(planData)
      ensures reply.Answered? && reply.ok && reply.body.Failure? ==> error == Some(reply.body.error) && planData == old(planData)
      ensures reply.Answered? && reply.ok && reply.body.Success? ==>
        var data := reply.body.value;
        if Truthy(data) && Truthy(Get(data, "plan_name")) then planData == data && error == old(error)
        else error == Some("Invalid plan data received") && planData == old(planData)
    {
      match reply {
        case Thrown(message) =>
          error := Some(message);
        case Answered(ok, status, body) =>
          if !ok {
            error := Some("Failed to fetch plan: " + IntToString(status));
          } else if body.Failure? {
            error := Some(body.error);
          } else if !Truthy(body.value) || !Truthy(Get(body.value, "plan_name")) {
            error := Some("Invalid plan data received");
          } else {
            planData := body.value;
          }
      }
      loading := false;
    }
  }
}

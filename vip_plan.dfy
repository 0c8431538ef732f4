/**
 * The VIP plan list (src/pages/User/VipPlan.jsx): each plan record from the server becomes a
 * card with a list of feature lines, a colour picked by its position and a "popular" badge
 * on the second card.
 */
module VipPlan {
  import opened Wrappers
  import opened JsValues
  import Http

  /**
   * `parseJsonField`: a falsy field gives `[]`, an array is kept, a string is whatever
   * `JSON.parse` makes of it (`[]` when it throws), and any other value gives `[]`.
   */
  function ParseJsonField(field: JsValue, parse: JsonParse): (r: JsValue)
    ensures field.Arr? ==> r == field
    ensures !r.Arr? ==> field.Str? && field.s != "" && parse(field.s) == Success(r)
    ensures !Truthy(field) ==> r == Arr([])
    ensures Truthy(field) && !field.Arr? && !field.Str? ==> r == Arr([])
    ensures field.Str? && field.s != "" && parse(field.s).Failure? ==> r == Arr([])
    ensures field.Str? && field.s != "" && parse(field.s).Success? ==> r == parse(field.s).value
  {
    if !Truthy(field) then Arr([])
    else if field.Arr? then field
    else if field.Str? then
      match parse(field.s)
      case Success(v) => v
      case Failure(_) => Arr([])
    else Arr([])
  }

  /**
   * `v.length > 0`: reading `length` of `null` or `undefined` throws; arrays and strings
   * compare their length; of other values only an own numeric or boolean `length` property
   * can be positive.
   */
  function LengthPositive(v: JsValue): (r: Result<bool>)
    ensures r.Failure? <==> v.Undefined? || v.Null?
    ensures v.Arr? ==> r == Success(|v.items| > 0)
  {
    match v
    case Undefined => Failure(ReadError(v, "length"))
    case Null => Failure(ReadError(v, "length"))
    case Arr(items) => Success(|items| > 0)
    case Str(s) => Success(|s| > 0)
    case _ =>
      match Get(v, "length")
      case Num(n) => Success(n > 0)
      case Bool(b) => Success(b)
      case _ => Success(false)
  }

  /** The OTT line, if any: `OTT: ` and the platforms joined by a comma and a space. */
  function OttFeatures(ott: JsValue): Result<seq<JsValue>> {
    match LengthPositive(ott)
    case Failure(e) => Failure(e)
    case Success(positive) =>
      if !positive then Success([])
      else if ott.Arr? then Success([Str("OTT: " + Join(ott.items, ", "))])
      else Failure("ottPlatforms.join is not a function")
  }

  /** `...benefits` when there are any: an array's elements, or a string's characters one by one. */
  function BenefitFeatures(benefits: JsValue): Result<seq<JsValue>> {
    match LengthPositive(benefits)
    case Failure(e) => Failure(e)
    case Success(positive) =>
      if !positive then Success([])
      else if benefits.Arr? then Success(benefits.items)
      else if benefits.Str? then Success(seq(|benefits.s|, i requires 0 <= i < |benefits.s| => Str([benefits.s[i]])))
      else Failure("Spread syntax requires ...iterable[Symbol.iterator] to be a function")
  }

  /** The line for one scalar field: present exactly when the field is truthy. */
  function Line(field: JsValue, text: JsValue): seq<JsValue> {
    if Truthy(field) then [text] else []
  }

  /** The speed, data-policy and validity lines of a plan, in that order. */
  function ScalarFeatures(plan: JsValue): seq<JsValue> {
    var speed, data, validity := Get(plan, "speed_mbps"), Get(plan, "data_policy"), Get(plan, "validity_days");
    Line(speed, Str(ToString(speed) + " Mbps Speed"))
    + Line(data, data)
    + Line(validity, Str(ToString(validity) + " Days Validity"))
  }

  /** How many of the three scalar fields are truthy. */
  function TruthyFields(plan: JsValue): (n: nat)
    ensures n <= 3
  {
    (if Truthy(Get(plan, "speed_mbps")) then 1 else 0)
    + (if Truthy(Get(plan, "data_policy")) then 1 else 0)
    + (if Truthy(Get(plan, "validity_days")) then 1 else 0)
  }

  /**
   * `buildFeatures`, push by push. Reading a field of a `null` or `undefined` plan throws, as
   * do `length` of a `null` list, `join` of a list that is not an array and spreading an
   * object; otherwise the features are the scalar lines, the OTT line and the benefits, in
   * that order.
   */
  method BuildFeatures(plan: JsValue, parse: JsonParse) returns (r: Result<seq<JsValue>>)
    ensures plan.Undefined? || plan.Null? ==> r == Failure(ReadError(plan, "speed_mbps"))
    ensures !(plan.Undefined? || plan.Null?) ==>
      var ott := OttFeatures(ParseJsonField(Get(plan, "ott_platforms"), parse));
      var benefits := BenefitFeatures(ParseJsonField(Get(plan, "additional_benefits"), parse));
      && (r.Success? <==> ott.Success? && benefits.Success?)
      && (r.Success? ==> r.value == ScalarFeatures(plan) + ott.value + benefits.value)
  {
    var features: seq<JsValue> := [];
    var speed := Prop(plan, "speed_mbps");
    if speed.Failure? {
      return Failure(speed.error);
    }
    if Truthy(speed.value) {
      features := features + [Str(ToString(speed.value) + " Mbps Speed")];
    }
    var data := Get(plan, "data_policy");
    if Truthy(data) {
      features := features + [data];
    }
    var validity := Get(plan, "validity_days");
    if Truthy(validity) {
      features := features + [Str(ToString(validity) + " Days Validity")];
    }
    assert features == ScalarFeatures(plan);

    var ott := PushOtt(features, ParseJsonField(Get(plan, "ott_platforms"), parse));
    if ott.Failure? {
      return ott;
    }
    r := PushBenefits(ott.value, ParseJsonField(Get(plan, "additional_benefits"), parse));
  }

  /** `features` followed by the lines `more` holds, or the error `more` reports. */
  function Extended(features: seq<JsValue>, more: Result<seq<JsValue>>): (r: Result<seq<JsValue>>)
    ensures r.Success? <==> more.Success?
    ensures r.Success? ==> |r.value| == |features| + |more.value|
    ensures r.Success? ==> r.value[..|features|] == features && r.value[|features|..] == more.value
  {
    match more
    case Success(lines) => Success(features + lines)
    case Failure(e) => Failure(e)
  }

  /** The OTT step of `buildFeatures`: push the joined platforms when there are any. */
  method PushOtt(features: seq<JsValue>, ottPlatforms: JsValue) returns (r: Result<seq<JsValue>>)
    ensures r == Extended(features, OttFeatures(ottPlatforms))
  {
    var hasOtt := LengthPositive(ottPlatforms);
    if hasOtt.Failure? {
      return Failure(hasOtt.error);
    }
    if !hasOtt.value {
      assert features + [] == features;
      return Success(features);
    }
    if !ottPlatforms.Arr? {
      return Failure("ottPlatforms.join is not a function");
    }
    return Success(features + [Str("OTT: " + Join(ottPlatforms.items, ", "))]);
  }

  /** The benefits step of `buildFeatures`: spread the benefits when there are any. */
  method PushBenefits(features: seq<JsValue>, additionalBenefits: JsValue) returns (r: Result<seq<JsValue>>)
    ensures r == Extended(features, BenefitFeatures(additionalBenefits))
  {
    var hasBenefits := LengthPositive(additionalBenefits);
    if hasBenefits.Failure? {
      return Failure(hasBenefits.error);
    }
    if !hasBenefits.value {
      assert features + [] == features;
      return Success(features);
    }
    match additionalBenefits
    case Arr(items) =>
      return Success(features + items);
    case Str(s) =>
      return Success(features + seq(|s|, i requires 0 <= i < |s| => Str([s[i]])));
    case _ =>
      return Failure("Spread syntax requires ...iterable[Symbol.iterator] to be a function");
  }

  /**
   * For a plan whose lists arrive as arrays, building never fails and the number of lines is
   * the number of truthy scalar fields, one more when there are OTT platforms, plus the
   * number of benefits.
   */
  lemma FeatureCount(plan: JsValue, parse: JsonParse, ott: seq<JsValue>, benefits: seq<JsValue>)
    requires plan.Obj?
    requires Get(plan, "ott_platforms") == Arr(ott) && Get(plan, "additional_benefits") == Arr(benefits)
    ensures OttFeatures(ParseJsonField(Get(plan, "ott_platforms"), parse)).Success?
    ensures BenefitFeatures(ParseJsonField(Get(plan, "additional_benefits"), parse)) == Success(benefits)
    ensures |ScalarFeatures(plan)| + |OttFeatures(ParseJsonField(Get(plan, "ott_platforms"), parse)).value|
            == TruthyFields(plan) + (if |ott| > 0 then 1 else 0)
  {
  }

  /** A falsy field adds no line: a speed of 0, say, leaves the list as if the field were absent. */
  lemma FalsyFieldAddsNothing(plan: JsValue, key: string)
    requires plan.Obj? && key in {"speed_mbps", "data_policy", "validity_days"}
    requires !Truthy(Get(plan, key))
    ensures ScalarFeatures(plan) == ScalarFeatures(Obj(plan.props - {key}))
  {
    var other := Obj(plan.props - {key});
    assert Get(other, key) == Undefined;
    assert forall k :: k != key ==> Get(other, k) == Get(plan, k);
  }

  const Colors: seq<string> := [
    "from-slate-600 to-slate-700",
    "from-blue-600 to-indigo-600",
    "from-purple-600 to-pink-600",
    "from-amber-500 to-orange-600",
    "from-green-600 to-emerald-600",
    "from-red-600 to-rose-600"
  ]

  /** `getColorGradient(index)`: the colours in turn, by position modulo six. */
  function GetColorGradient(index: nat): string {
    Colors[index % |Colors|]
  }

  /** The colours repeat every six cards, and any six consecutive cards get six different colours. */
  lemma ColorGradientPeriod(i: nat, j: nat)
    ensures GetColorGradient(i + 6) == GetColorGradient(i)
    ensures i < j < i + 6 ==> GetColorGradient(i) != GetColorGradient(j)
  {
    if i < j < i + 6 {
      assert i % 6 != j % 6;
      ColorsDistinct(i % 6, j % 6);
    }
  }

  lemma ColorsDistinct(a: nat, b: nat)
    requires a < 6 && b < 6 && a != b
    ensures Colors[a] != Colors[b]
  {
    assert Colors[a][5] != Colors[b][5] || Colors[a][6] != Colors[b][6];
  }

  /** `isPopular(index)`: the second card. */
  predicate IsPopular(index: nat) {
    index == 1
  }

  /** The number of popular cards among the first `n`. */
  function PopularCount(n: nat): nat {
    if n == 0 then 0 else PopularCount(n - 1) + (if IsPopular(n - 1) then 1 else 0)
  }

  /** A list of two or more plans has exactly one popular card, and a shorter list none. */
  lemma {:induction false} OnePopular(n: nat)
    ensures PopularCount(n) == if n >= 2 then 1 else 0
  {
    if n > 0 {
      OnePopular(n - 1);
    }
  }

  /** The VIP plan screen's state. */
  class VipPlansPage {
    var vipPlans: JsValue
    var loading: bool
    var error: Option<string>

    constructor()
      ensures vipPlans == Arr([]) && loading && error == None
    {
      vipPlans := Arr([]);
      loading := true;
      error := None;
    }

    /** `fetchVipPlans` up to its request, on mounting and on "Try Again": loading starts. */
    method BeginFetch()
      modifies this
      ensures loading && vipPlans == old(vipPlans) && error == old(error)
    {
      loading := true;
    }

    /**
     * The answer to the list request: a response that is not ok, or a body that does not
     * parse, leaves the list alone and sets the error; otherwise the body becomes the list
     * and the error is cleared. Loading ends either way.
     */
    method FinishFetch(reply: Http.Reply)
      modifies this
      ensures !loading
      ensures reply.Thrown? ==> error == Some(reply.message) && vipPlans == old(vipPlans)
      ensures reply.Answered? && !reply.ok ==> error == Some("Failed to fetch VIP plans") && vipPlans == old(vipPlans)
      ensures reply.Answered? && reply.ok && reply.body.Failure? ==> error == Some(reply.body.error) && vipPlans == old(vipPlans)
      ensures reply.Answered? && reply.ok && reply.body.Success? ==> error == None && vipPlans == reply.body.value
    {
      match reply {
        case Thrown(message) =>
          error := Some(message);
        case Answered(ok, _, body) =>
          if !ok {
            error := Some("Failed to fetch VIP plans");
          } else if body.Failure? {
            error := Some(body.error);
          } else {
            vipPlans := body.value;
            error := None;
          }
      }
      loading := false;
    }
  }
}
